/**
 * The top bar: the shortened wallet address and the choice between the
 * connect button, the connected wallet with its disconnect button, and the
 * loading placeholder.
 */
module Navbar {
  import opened Wrappers
  import opened JsText

  /** How many leading characters of an address are kept. */
  function HeadLength(a: string): nat {
    if |a| < 6 then |a| else 6
  }

  /** How many trailing characters of an address are kept. */
  function TailLength(a: string): nat {
    if |a| < 4 then |a| else 4
  }

  /**
   * `formatAddress(address)`: the first six characters, an ellipsis and the
   * last four, where `slice` keeps a shorter address whole in either part.
   */
  function FormatAddress(a: string): (r: string)
    ensures |r| == HeadLength(a) + 3 + TailLength(a)
    ensures r[..HeadLength(a)] == a[..HeadLength(a)]
    ensures r[HeadLength(a)..HeadLength(a) + 3] == "..."
    ensures r[|r| - TailLength(a)..] == a[|a| - TailLength(a)..]
  {
    var head := Slice(a, 0, 6);
    var tail := SliceFrom(a, -4);
    assert head == a[..HeadLength(a)];
    assert tail == a[|a| - TailLength(a)..];
    head + "..." + tail
  }

  /** A full-length address shows as thirteen characters: six, the ellipsis, four. */
  lemma FormatLongAddress(a: string)
    requires |a| >= 10
    ensures var r := FormatAddress(a);
            |r| == 13 && r == a[..6] + "..." + a[|a| - 4..]
  {
    var r := FormatAddress(a);
    assert r == r[..6] + r[6..9] + r[9..];
  }

  /** An address of exactly ten characters can be read back whole from its short form. */
  lemma TenCharacterAddressKept(a: string)
    requires |a| == 10
    ensures var r := FormatAddress(a);
            r[..6] + r[9..] == a
  {
    FormatLongAddress(a);
    assert a == a[..6] + a[6..];
  }

  /** Two long addresses look alike exactly when they share the first six and the last four characters. */
  lemma SameShortForm(a: string, b: string)
    requires |a| >= 10 && |b| >= 10
    ensures FormatAddress(a) == FormatAddress(b) <==> a[..6] == b[..6] && a[|a| - 4..] == b[|b| - 4..]
  {
    var ra, rb := FormatAddress(a), FormatAddress(b);
    FormatLongAddress(a);
    FormatLongAddress(b);
    if ra == rb {
      assert a[..6] == ra[..6] == rb[..6] == b[..6];
      assert a[|a| - 4..] == ra[9..] == rb[9..] == b[|b| - 4..];
    }
  }

  /** What the right-hand side of the bar shows. */
  datatype NavDisplay = ConnectButton | Connected(address: Option<string>) | Loading

  /**
   * The bar's right-hand side: the connect button once the wallet library
   * is ready and nobody is signed in; the first wallet's short address (if
   * there is a wallet) with the disconnect button once someone is; the
   * loading placeholder before the library is ready.
   */
  function Display(ready: bool, authenticated: bool, wallets: seq<string>): (d: NavDisplay)
    ensures d == ConnectButton <==> ready && !authenticated
    ensures d.Connected? <==> ready && authenticated
    ensures d == Loading <==> !ready
    ensures d.Connected? ==> (d.address.Some? <==> wallets != [])
    ensures d.Connected? && wallets != [] ==> d.address == Some(FormatAddress(wallets[0]))
  {
    if ready && !authenticated then ConnectButton
    else if ready && authenticated then Connected(if wallets != [] then Some(FormatAddress(wallets[0])) else None)
    else Loading
  }

  /** Only the first wallet is shown: the wallets after it do not change the bar. */
  lemma OnlyFirstWalletShown(ready: bool, authenticated: bool, first: string, others: seq<string>, more: seq<string>)
    ensures Display(ready, authenticated, [first] + others) == Display(ready, authenticated, [first] + more)
  {
  }
}
