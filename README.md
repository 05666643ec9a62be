# TuneCent front-end core, modelled in Dafny

TuneCent is a music-funding front end. Creators register works and open
funding pools ("campaigns") for them. Listeners play the works and invest in
the pools. Creator and investors share a mock per-play revenue.

All of this lives in the browser:

- The **local ledger** (`localStorage.ts`) keeps five collections: music,
  campaigns, investments, play history and user progress. New records go to
  the front. Updates spread a partial record over every record with the
  id. Contributions and plays are derived from what is stored.
- Media files stay in IndexedDB. The ledger stores **references**
  `indexeddb:<kind>:<id>` (`indexedDB.ts`).
- The **music pool** lists five tracks (stored, fetched and built-in). It
  records a play after 30 seconds of listening and when a track ends.
- The **upload form**, the **campaign dialog** and the **invest card** check
  their input and then write one record each.
- Four display components read the ledger and the signed-in user: the
  **your-path** panel, the **navigation bar**, the **dashboard greeting**
  and the **side bar**.

The project models these as follows:

- Ledger records and queries are datatypes and functions on sequences.
- The ledger itself is a class, `LedgerStore.Ledger`, whose methods replace
  the collections they write.
- The components that change state are classes over that ledger:
  `MusicPool.PlayTracker`, `UploadForm.CreateUploadForm`,
  `CampaignForm.CreateCampaignModal`, `InvestCard.InvestCardState` and
  `SideBar.SideBarState`.
- Each handler is specified by an outcome function of its inputs, and the
  lemmas about that function state what the handler guarantees.

JavaScript numbers are modelled as `JsNumber.Num`: an exact real or NaN.
`parseFloat`, `parseInt` and the JavaScript string operations the code uses
(`split`, `slice`, `includes`, `startsWith`, ASCII case mapping) are modelled
in `JsNumber` and `JsText`.

Some behaviour is modelled as the code does it, even where it may surprise:

- YourPath counts every stored work, not only the user's own.
- YourPath gives a Platinum Artist, a Platinum Investor and a Diamond
  Investor the 5-work default, because their level names contain none of
  "Bronze", "Silver" and "Gold".
- InvestCard's guard `!investAmount || parseFloat(investAmount) <= 0`,
  taken alone, lets through an amount that `parseFloat` cannot read, and
  such an amount would credit NaN to the campaign. The card's amount field
  is a number input, whose value is "" or a valid number, and "" is
  refused. So the card itself never saves an unreadable amount. The model
  takes `investAmount` as free text, which covers more inputs than the field
  can produce (see "## Left out").
- `getTotalCreatorRoyalty` compares creator addresses exactly. The other
  address queries ignore case.

Paths in the table below are relative to the repository root.

## Model

| member | source | states |
|---|---|---|
| Session.UserIdOrGuest | src/app/components/dashboard/CreateCampaignModal.tsx:64 | `user?.id \|\| "guest"` is never empty; it is the user id exactly when a non-empty id is signed in |
| JsText.Split | src/app/utils/indexedDB.ts:151 | `split` on one character yields at least one part |
| JsText.SplitShape | src/app/utils/indexedDB.ts:151-152 | `split` yields one more part than separators, and no part holds the separator |
| JsText.SplitJoin | src/app/utils/indexedDB.ts:151 | joining the parts with the separator gives back the text |
| JsText.SplitHead | src/app/components/dashboard/HeroDashboard.tsx:16 | the first part is the separator-free prefix, followed by the separator unless it is the whole text |
| JsText.SplitPair | src/app/components/create/CreateUploadForm.tsx:118-119 | `a:b` with colon-free halves splits into exactly `[a, b]` |
| JsText.ContainsInfix | src/app/components/music/YourPath.tsx:29-35 | `includes` holds for any text written into a string |
| JsText.MissingCharNotContained | src/app/components/music/YourPath.tsx:29-35 | a text lacking one character of `t` does not include `t` |
| JsText.Slice | src/app/components/Navbar.tsx:14 | `slice(start, end)` resolves both indices (negative from the end, then clamped) and yields exactly the characters from the first up to the second, empty when they cross |
| JsText.SliceFrom | src/app/components/Navbar.tsx:14 | `slice(start)` is the suffix from the resolved start index |
| JsText.NatToStringValue | src/app/components/dashboard/MusicPool.tsx:327 | the decimal rendering of a whole number reads back as that number |
| JsNumber.Add | src/app/utils/localStorage.ts:186-188 | the sum is a number exactly when both operands are numbers; NaN absorbs |
| JsNumber.Div | src/app/utils/localStorage.ts:550 | division by a non-zero total is a number exactly when the dividend is, and multiplies back |
| JsNumber.ParseIntOfNat | src/app/components/create/CreateUploadForm.tsx:120 | `parseInt` of a rendered whole number is that number |
| JsNumber.ParseIntOfPadded | src/app/components/create/CreateUploadForm.tsx:120 | `parseInt` of a zero-padded seconds field is its value |
| JsNumber.ParseFloatOfNat | src/app/utils/localStorage.ts:186-187 | `parseFloat` of a rendered whole number is that number |
| JsNumber.EmptyIsNaN | src/app/components/dashboard/CreateCampaignModal.tsx:50 | empty text reads as NaN under both readers |
| JsNumber.ParseFloatNaN | src/app/components/dashboard/CreateCampaignModal.tsx:45-50 | `parseFloat` is NaN exactly when, after white space and a sign, the text starts neither with a digit nor with a point and a digit |
| JsNumber.ParseIntNaN | src/app/components/dashboard/CreateCampaignModal.tsx:61 | `parseInt` is NaN exactly when, after white space and a sign, the text does not start with a digit; what it reads `parseFloat` reads too |
| JsNumber.ParseIntIsWhole | src/app/components/dashboard/CreateCampaignModal.tsx:74 | what `parseInt` reads is a whole number |
| JsNumber.SpaceSkipped | src/app/components/create/CreateUploadForm.tsx:120 | a white-space character before the text, any Unicode space separator included, changes neither `parseFloat` nor `parseInt` |
| SeqOps.FilterCounts | src/app/utils/localStorage.ts:100 | `filter` keeps every copy of an accepted element and no copy of a rejected one |
| SeqOps.FilterIsSubsequence | src/app/utils/localStorage.ts:100 | `filter` keeps the survivors in their order |
| SeqOps.Find | src/app/utils/localStorage.ts:76 | `find` returns the first element satisfying the test, and undefined exactly when none does |
| SeqOps.FindFiltered | src/app/utils/localStorage.ts:510-511 | `find` over a filtered list finds the first element of the whole list passing both tests |
| LedgerRecords.MergeOwnFields | src/app/utils/localStorage.ts:333-336 | spreading a record over itself changes nothing; over another, its own fields win |
| LedgerQueries.GetMusicById | src/app/utils/localStorage.ts:74-77 | the first record in storage order with that id, or null exactly when no record has it |
| LedgerQueries.GetMusicByCreator | src/app/utils/localStorage.ts:110-115 | each stored record whose creator matches ignoring case, as many times as stored, in storage order, and no other |
| LedgerQueries.UpdatedMusic | src/app/utils/localStorage.ts:82-92 | same length; records with the id get the patch spread over them, the others are kept |
| LedgerQueries.WithoutMusic | src/app/utils/localStorage.ts:97-105 | every record without the id is kept in order with its multiplicity, none with it |
| LedgerQueries.RefreshKeepsMusic | src/app/utils/localStorage.ts:332-338 | with unique ids, re-spreading the played music's own record leaves the collection unchanged |
| LedgerQueries.GetCampaignById | src/app/utils/localStorage.ts:148-151 | the first campaign with the id, or null exactly when none has it |
| LedgerQueries.GetCampaignsByMusic | src/app/utils/localStorage.ts:156-159 | each campaign of that music id, as many times as stored, in storage order, and no other |
| LedgerQueries.GetCampaignsByCreator | src/app/utils/localStorage.ts:216-221 | each campaign whose creator matches ignoring case, as many times as stored, in storage order, and no other |
| LedgerQueries.GetActiveCampaigns | src/app/utils/localStorage.ts:226-229 | each active campaign, as many times as stored, in storage order, and no other |
| LedgerQueries.GetStorageStats | src/app/utils/localStorage.ts:255-261 | the counts of music and campaigns; the active count is at most the total |
| LedgerQueries.UpdatedCampaigns | src/app/utils/localStorage.ts:164-174 | same length; campaigns with the id get the patch, the others are kept |
| LedgerQueries.WithoutCampaign | src/app/utils/localStorage.ts:203-211 | every campaign without the id is kept in order with its multiplicity, none with it |
| LedgerQueries.ContributionPatch | src/app/utils/localStorage.ts:190-193 | the update written adds the contribution to the amount and one backer, and touches no other field |
| LedgerQueries.Credited | src/app/utils/localStorage.ts:179-198 | an unknown id changes nothing; otherwise every campaign with the id gets the first one's amount plus the contribution and its backers plus one, the others are kept, and the length is unchanged |
| LedgerQueries.CreditOneCampaign | src/app/utils/localStorage.ts:179-198 | with unique ids, exactly the campaign with the id is credited and no other changes |
| LedgerQueries.GetInvestmentsByUser | src/app/utils/localStorage.ts:300-305 | each investment whose investor matches ignoring case, as many times as stored, in storage order, and no other |
| LedgerQueries.GetInvestmentsByCampaign | src/app/utils/localStorage.ts:307-310 | each investment of that campaign id, as many times as stored, in storage order, and no other |
| LedgerQueries.GetInvestmentById | src/app/utils/localStorage.ts:582-585 | the first investment in storage order with the id, or null exactly when none has it |
| LedgerQueries.SumAmountsFinite | src/app/utils/localStorage.ts:410-412 | the total of the typed amounts is a number exactly when every amount can be read |
| LedgerQueries.SumAmountsConcat | src/app/utils/localStorage.ts:410-412 | summing the typed amounts of two lists one after the other adds the two totals, NaN included |
| LedgerQueries.GetPlayHistoryByUser | src/app/utils/localStorage.ts:354-357 | each play of that user, as many times as stored, in storage order, and no other |
| LedgerQueries.GetPlayHistoryByMusic | src/app/utils/localStorage.ts:359-362 | each play of that music, as many times as stored, in storage order, and no other |
| LedgerQueries.GetMusicPlayCount | src/app/utils/localStorage.ts:364-366 | at most the number of plays, and zero exactly when no play is of that music |
| LedgerQueries.PlayCountAfterSave | src/app/utils/localStorage.ts:325-329 | a new play raises its music's count by one and no other music's |
| LedgerQueries.GetUserProgressById | src/app/utils/localStorage.ts:482-485 | the first progress record of the user in storage order, or null exactly when none exists |
| LedgerQueries.OtherProgress | src/app/utils/localStorage.ts:461 | each other user's record, as many times as stored, in storage order, and none of this user |
| LedgerStore.Ledger.constructor | src/app/utils/localStorage.ts:61-72 | every collection starts empty |
| LedgerStore.Ledger.SaveMusic | src/app/utils/localStorage.ts:48-56 | the record goes in front of the stored music |
| LedgerStore.Ledger.UpdateMusic | src/app/utils/localStorage.ts:82-92 | the music collection becomes `UpdatedMusic` of the old one |
| LedgerStore.Ledger.DeleteMusic | src/app/utils/localStorage.ts:97-105 | the music collection becomes `WithoutMusic` of the old one |
| LedgerStore.Ledger.SaveCampaign | src/app/utils/localStorage.ts:122-130 | the campaign goes in front of the stored campaigns |
| LedgerStore.Ledger.UpdateCampaign | src/app/utils/localStorage.ts:164-174 | the campaigns become `UpdatedCampaigns` of the old ones |
| LedgerStore.Ledger.DeleteCampaign | src/app/utils/localStorage.ts:203-211 | the campaigns become `WithoutCampaign` of the old ones |
| LedgerStore.Ledger.AddContributionToCampaign | src/app/utils/localStorage.ts:179-198 | the campaigns become `Credited` with the amount as `parseFloat` reads it |
| LedgerStore.Ledger.ClearAllLocalData | src/app/utils/localStorage.ts:243-250 | only music and campaigns are emptied |
| LedgerStore.Ledger.SaveInvestment | src/app/utils/localStorage.ts:277-288 | the investment goes in front, and its campaign is credited with its amount |
| LedgerStore.Ledger.SavePlayHistory | src/app/utils/localStorage.ts:325-342 | the play goes in front, the music is re-spread, and the music's play count rises by exactly one |
| LedgerStore.Ledger.UpdateUserProgress | src/app/utils/localStorage.ts:384-470 | stores and returns what `ProgressUpdate` computes from the old collections |
| LedgerStore.Ledger.ClearAllLocalDataExtended | src/app/utils/localStorage.ts:588-597 | every collection is emptied |
| LedgerStore.DeletedNotFound | src/app/utils/localStorage.ts:97-105 | after a delete nothing is found for the id, and every other record is still there |
| LedgerStore.SaveThenDelete | src/app/utils/localStorage.ts:48-56 | saving a record with a new id and then deleting that id restores the collection |
| LedgerStore.UpdatedFound | src/app/utils/localStorage.ts:82-92 | after an update that keeps the id, the record found is the old first one with the patch spread over it |
| LedgerStore.StatsAfterSaveCampaign | src/app/utils/localStorage.ts:255-261 | saving a campaign adds one to the total, and one to the active count exactly when it is active |
| Royalty.Revenue | src/app/utils/localStorage.ts:505-507 | the revenue is never negative, and zero exactly when the music has no play |
| Royalty.ActiveCampaignFor | src/app/utils/localStorage.ts:510-511 | the first campaign in storage order that is active and funds the music, or none exactly when no active campaign funds it |
| Royalty.CalculateCreatorRoyalty | src/app/utils/localStorage.ts:505-518 | all of the revenue without an active campaign; with one, the revenue less the first active campaign's investor pool |
| Royalty.CalculateInvestorRoyalty | src/app/utils/localStorage.ts:537-542 | 0 for an unknown investment or an unknown campaign |
| Royalty.MusicOwnedExactly | src/app/utils/localStorage.ts:570-572 | each music whose creator address equals the id exactly, as many times as stored, in storage order, and no other |
| Royalty.CreatorPartWithin | src/app/utils/localStorage.ts:513-517 | with a percentage in 0..100, the creator keeps between nothing and all of the revenue, all of it without a campaign |
| Royalty.CreatorAndPoolMakeRevenue | src/app/utils/localStorage.ts:515-516 | the creator's part and the investors' pool add up to the revenue |
| Royalty.SharesAdd | src/app/utils/localStorage.ts:548-554 | two investors' royalties from one pool add up to the royalty of their summed amounts |
| Royalty.WholeShare | src/app/utils/localStorage.ts:548-554 | the whole campaign total earns the whole pool |
| Royalty.CreatorRoyaltyWithinRevenue | src/app/utils/localStorage.ts:505-518 | the creator royalty lies between 0 and the revenue, and equals the revenue without an active campaign |
| Royalty.CreatorRoyaltyExample | src/app/utils/localStorage.ts:501-504 | the documented case: 100 plays at 30% leave the creator $0.70 of $1.00 |
| Royalty.InvestorRoyaltyExample | src/app/utils/localStorage.ts:521-536 | the documented case: $200 of $800 at 30% over 100 plays earns $0.075 |
| Royalty.NoShareWithoutTotal | src/app/utils/localStorage.ts:548-550 | a total that is not positive, or NaN, gives each investor 0 |
| Royalty.InvestorRoyaltyIsShare | src/app/utils/localStorage.ts:537-555 | with unique ids, an investment's royalty is the pool times its amount over the campaign total |
| Royalty.SumOfShares | src/app/utils/localStorage.ts:560-565 | summed over a campaign's investments, the royalties are the pool times their total over the campaign total |
| Royalty.RevenueSplit | src/app/utils/localStorage.ts:505-565 | when the campaign total is its investments' total, the creator's royalty plus all investors' royalties is the whole revenue |
| Royalty.ShareNonNegative | src/app/utils/localStorage.ts:548-550 | a non-negative amount over a positive total, or 0, is a non-negative share |
| Royalty.InvestorRoyaltyOfNonNegative | src/app/utils/localStorage.ts:548-554 | a readable non-negative amount with a non-negative percentage earns a non-negative number |
| Royalty.InvestorRoyaltyNonNegative | src/app/utils/localStorage.ts:537-555 | with readable non-negative amounts and non-negative percentages, every investment's royalty is a non-negative number |
| Royalty.SumInvestorRoyaltyNonNegative | src/app/utils/localStorage.ts:560-565 | summed over any list of investments, those royalties are a non-negative number |
| Royalty.InvestorTotalNonNegative | src/app/utils/localStorage.ts:560-565 | a user without investments (address compared ignoring case) earns 0; with readable non-negative amounts and percentages the total is a non-negative number |
| Royalty.SumRevenue | src/app/utils/localStorage.ts:570-577 | the summed revenue of a list of music is never negative |
| Royalty.SumCreatorRoyaltyWithin | src/app/utils/localStorage.ts:573-576 | summed over any music, creator royalties lie between 0 and the summed revenue, and equal it when no campaign is active |
| Royalty.CreatorTotalWithinRevenue | src/app/utils/localStorage.ts:570-577 | the creator total lies between 0 and the revenue of the music stored under exactly that address, equals it with no active campaign, and is 0 when no address matches exactly |
| Progress.CreatorTier | src/app/utils/localStorage.ts:425-437 | the creator's percentage always lies in 0..100 |
| Progress.InvestorTier | src/app/utils/localStorage.ts:440-455 | the investor's percentage always lies in 0..100 |
| Progress.CreatorTierMonotone | src/app/utils/localStorage.ts:425-437 | more plays never lower the percentage; only Platinum Artist shows 100 |
| Progress.InvestorTierMonotone | src/app/utils/localStorage.ts:440-455 | more investments never lower the percentage; only Diamond Investor shows 100 |
| Progress.CreatorTierBoundary | src/app/utils/localStorage.ts:431-436 | 99 plays are Emerging Artist at 49.5%, 100 plays Silver Artist at 50% |
| Progress.InvestorTierBoundary | src/app/utils/localStorage.ts:449-454 | 4 investments are Bronze Investor at 32%, 5 Silver Investor at 40% |
| Progress.SumPlayCountsZero | src/app/utils/localStorage.ts:417-419 | the creator's play total is zero exactly when none of their music was played |
| Progress.SumPlayCountsAfterPlay | src/app/utils/localStorage.ts:417-419 | a new play raises the total by the number of records carrying its music id |
| Progress.InitialProgress | src/app/utils/localStorage.ts:389-400 | a new user starts with zero totals at the first level of their role |
| Progress.Recomputed | src/app/utils/localStorage.ts:404-458 | the totals count the user's plays and investments; the level follows the role passed in; the record keeps its own role |
| Progress.ProgressUpdate | src/app/utils/localStorage.ts:384-465 | the user's first record, or a new one, is recomputed and stored in front of the other users' records |
| Progress.UpdateStoresOneRecord | src/app/utils/localStorage.ts:460-463 | afterwards the user has exactly one record, found first, and other users' records are kept |
| Progress.OtherProgressTwice | src/app/utils/localStorage.ts:461 | dropping a user's records twice is dropping them once |
| Progress.RecomputedTwice | src/app/utils/localStorage.ts:404-458 | recomputing a recomputed record from the same data changes nothing |
| Progress.UpdateIdempotent | src/app/utils/localStorage.ts:384-465 | a second update at the same moment stores and returns what the first did |
| MediaRef.AudioReference | src/app/utils/indexedDB.ts:61 | the audio reference is recognised as an IndexedDB reference |
| MediaRef.ImageReference | src/app/utils/indexedDB.ts:112 | the image reference is recognised as an IndexedDB reference |
| MediaRef.Reference | src/app/utils/indexedDB.ts:61 | every reference the store hands back is recognised as an IndexedDB reference |
| MediaRef.SchemeSplit | src/app/utils/indexedDB.ts:143-145 | any text after `indexeddb:` is recognised, and splits as the scheme followed by its own parts |
| MediaRef.ReferenceShape | src/app/utils/indexedDB.ts:143-145 | whatever is recognised is `indexeddb:` followed by the rest of the text |
| MediaRef.ParseIndexedDBReference | src/app/utils/indexedDB.ts:148-158 | what parses is a recognised reference, and neither its kind nor its id holds a colon |
| MediaRef.LoadMediaFromReference | src/app/utils/indexedDB.ts:161-172 | the audio store is read for a parsed `audio` kind and the image store for `image`, with the parsed id; nothing for any other text |
| MediaRef.ParseAccepts | src/app/utils/indexedDB.ts:148-158 | `indexeddb:<kind>:<id>` with colon-free parts parses to that kind and id |
| MediaRef.ParseOnlyAccepts | src/app/utils/indexedDB.ts:148-158 | whatever parses has that shape, with no colon in the kind or the id |
| MediaRef.ParseCharacterization | src/app/utils/indexedDB.ts:143-158 | parsing yields `(kind, id)` if and only if the text is `indexeddb:<kind>:<id>` with colon-free parts |
| MediaRef.ReferenceRoundTrip | src/app/utils/indexedDB.ts:61 | a saved file's reference, with a colon-free id, parses back and loads from its own store |
| MediaRef.ColonIdDoesNotParse | src/app/utils/indexedDB.ts:151-152 | a reference built from an id holding a colon does not parse and loads nothing |
| MediaRef.LoadCharacterization | src/app/utils/indexedDB.ts:161-172 | the audio store is read exactly for audio references of colon-free ids, and likewise the image store |
| MusicPool.LocalTrack | src/app/components/dashboard/MusicPool.tsx:122-131 | a stored record lists with its own id and audio URL and the drawn closing hour |
| MusicPool.LocalTracks | src/app/components/dashboard/MusicPool.tsx:121-131 | each stored record lists, in order |
| MusicPool.DisplayedMusic | src/app/components/dashboard/MusicPool.tsx:150-176 | five tracks: local first, then backend, then built-in; on failure the local and built-in tracks |
| MusicPool.DisplayedCloseHours | src/app/components/dashboard/MusicPool.tsx:111-114 | every listed closing hour is one of the options and renders exactly |
| MusicPool.Clock | src/app/components/dashboard/MusicPool.tsx:325-326 | minutes and seconds recompose the whole seconds, with seconds below 60 |
| MusicPool.FormatTime | src/app/components/dashboard/MusicPool.tsx:324-328 | the label holds exactly one colon |
| MusicPool.FormatTimeShape | src/app/components/dashboard/MusicPool.tsx:327 | the label is the minutes, a colon and the two-digit seconds |
| MusicPool.CloseTimeOptionsShown | src/app/components/dashboard/MusicPool.tsx:112 | every closing-hour option is under a day or a whole number of days |
| MusicPool.FormatCloseTime | src/app/components/dashboard/MusicPool.tsx:331-337 | the label ends in " hari" from 24 hours on and in " jam" below; the number before the unit, times 24 for days, gives back the hours |
| MusicPool.HourLabels | src/app/components/dashboard/MusicPool.tsx:336 | 6, 12 and 18 hours read "6 jam", "12 jam" and "18 jam" |
| MusicPool.DayLabel | src/app/components/dashboard/MusicPool.tsx:332-334 | 24·d hours read "d hari" for one to nine days |
| MusicPool.CloseTimeLabelsDiffer | src/app/components/dashboard/MusicPool.tsx:331-337 | different closing hours get different labels |
| MusicPool.ProgressBar | src/app/components/dashboard/MusicPool.tsx:496-497 | the bar's max is at least 1, and its value is the played whole seconds capped at that max |
| MusicPool.TimeUpdateRule | src/app/components/dashboard/MusicPool.tsx:221-223 | the 30-second wall-clock test is `now >= mark + 30000` |
| MusicPool.NoSecondRecordSoon | src/app/components/dashboard/MusicPool.tsx:234 | after a record the next one needs 1030 more seconds of wall clock |
| MusicPool.PlayOf | src/app/components/dashboard/MusicPool.tsx:225-232 | the play event carries the track id, the user, the time and the seconds listened |
| MusicPool.PlayTracker.constructor | src/app/components/dashboard/MusicPool.tsx:99-108 | the tracker starts stopped, at zero progress, with a zero mark |
| MusicPool.PlayTracker.LoadAudio | src/app/components/dashboard/MusicPool.tsx:210 | the start mark becomes the current time |
| MusicPool.PlayTracker.OnTimeUpdate | src/app/components/dashboard/MusicPool.tsx:217-237 | shows the media time; records exactly when the 30-second rule holds, then moves the mark 1000000 ms ahead; otherwise ledger and mark unchanged |
| MusicPool.PlayTracker.OnEnded | src/app/components/dashboard/MusicPool.tsx:239-254 | stops and rewinds; records exactly when signed in, with the track's duration |
| UploadForm.ParseDuration | src/app/components/create/CreateUploadForm.tsx:116-122 | an empty field, or one that does not split into two parts, gives 180 seconds |
| UploadForm.DurationRoundTrip | src/app/components/create/CreateUploadForm.tsx:116-122 | the player's `m:ss` label reads back as the whole seconds it shows |
| UploadForm.MissingSecondsIsNaN | src/app/components/create/CreateUploadForm.tsx:120 | "3:" reads as NaN |
| UploadForm.NewMusic | src/app/components/create/CreateUploadForm.tsx:144-155 | the record carries the new id and time, the typed title, artist and description, the genre or "General" when empty, the user id or "guest", the duration read from the form, an IndexedDB audio reference, and an IndexedDB cover exactly when a banner was picked |
| UploadForm.NewMusicMedia | src/app/components/create/CreateUploadForm.tsx:128-141 | the audio loads from the audio store under the record's id; the cover loads from the image store exactly when a banner was picked |
| UploadForm.NewMusicStored | src/app/components/create/CreateUploadForm.tsx:157 | after the save the work is found by id and listed among its creator's works |
| UploadForm.CreateOutcome | src/app/components/create/CreateUploadForm.tsx:97-157 | a record exactly when signed in, titled, credited to an artist, with audio, and stored; otherwise the first failed check |
| UploadForm.CreateUploadForm.constructor | src/app/components/create/CreateUploadForm.tsx:13-31 | every field starts empty, with no dialog |
| UploadForm.CreateUploadForm.HandleAudioUpload | src/app/components/create/CreateUploadForm.tsx:53-74 | a file is taken exactly when its type starts with "audio/"; otherwise nothing changes |
| UploadForm.CreateUploadForm.HandleBannerUpload | src/app/components/create/CreateUploadForm.tsx:76-95 | any picked file is taken as the banner |
| UploadForm.CreateUploadForm.HandleCreateKarya | src/app/components/create/CreateUploadForm.tsx:97-180 | the outcome is `CreateOutcome`; exactly one record is saved on success and none otherwise; the dialog shows the typed fields; a failed save leaves the dialog and its data as they were |
| UploadForm.CreateUploadForm.HandleCloseModal | src/app/components/create/CreateUploadForm.tsx:182-194 | closes the dialog and clears the form, except the picked banner file |
| CampaignForm.EmptyRoyaltyPassesAsWritten | src/app/components/dashboard/CreateCampaignModal.tsx:50-54 | a cleared royalty field reads as NaN and passes the guard as written |
| CampaignForm.RoyaltyChecksAgree | src/app/components/dashboard/CreateCampaignModal.tsx:50-54 | the intended check agrees with the written one on every number and also refuses NaN |
| CampaignForm.GoalCheck | src/app/components/dashboard/CreateCampaignModal.tsx:45-48 | an empty goal is refused; a goal that passes reads as positive or as NaN; a positive whole number passes |
| CampaignForm.DeadlineOf | src/app/components/dashboard/CreateCampaignModal.tsx:60-61 | a deadline exists only for a readable day count, within JavaScript's date range; `DeadlineAfterDays` gives its value |
| CampaignForm.DeadlineAfterDays | src/app/components/dashboard/CreateCampaignModal.tsx:60-61 | for every whole number n of days typed, the deadline is now plus n days of milliseconds |
| CampaignForm.DefaultDeadline | src/app/components/dashboard/CreateCampaignModal.tsx:60-61 | the default 30 days is thirty days of milliseconds later |
| CampaignForm.NewCampaign | src/app/components/dashboard/CreateCampaignModal.tsx:63-81 | a new campaign carries the music, the typed goal, the royalty, the deadline, the lock-up as `parseInt` reads it and the time; its creator is `user?.id \|\| "guest"` and its description the typed one or "Pool pendanaan untuk musik" plus the title; it is active with nothing raised and no backers |
| CampaignForm.SubmitOutcome | src/app/components/dashboard/CreateCampaignModal.tsx:39-83 | a saved campaign has the new id, is active and has no backers |
| CampaignForm.SubmitChecks | src/app/components/dashboard/CreateCampaignModal.tsx:39-83 | a campaign exactly when signed in, the goal and royalty pass and the deadline is a date; otherwise the first failed check; the saved campaign has the typed goal, the royalty read in 0..50, the deadline, the lock-up, the signed-in id or "guest" and the description or its default |
| CampaignForm.SubmitRoyaltyAsWritten | src/app/components/dashboard/CreateCampaignModal.tsx:39-83 | the submit with the written guard saves the royalty `parseFloat` read, which is NaN whenever it is not in (0, 50] |
| CampaignForm.SubmitAsWrittenDiffers | src/app/components/dashboard/CreateCampaignModal.tsx:50-54 | the written and the intended submit agree whenever the royalty reads as a number, and differ in what they save exactly for a NaN royalty with every other check passing |
| CampaignForm.NewCampaignIsActive | src/app/components/dashboard/CreateCampaignModal.tsx:83 | a saved campaign is the one found for its id and the first active campaign found for its music |
| CampaignForm.CreatorKeepsHalf | src/app/components/dashboard/CreateCampaignModal.tsx:50-54 | a royalty of at most 50% leaves the creator at least half the revenue |
| CampaignForm.NewCampaignSetsCreatorShare | src/app/components/dashboard/CreateCampaignModal.tsx:83 | once saved, the creator's royalty is their share of the revenue, between half and all of it |
| CampaignForm.CreateCampaignModal.constructor | src/app/components/dashboard/CreateCampaignModal.tsx:20-37 | the dialog opens with 25%, 30 days and 90 days of lock-up |
| CampaignForm.CreateCampaignModal.HandleSubmit | src/app/components/dashboard/CreateCampaignModal.tsx:39-108 | the outcome is `SubmitOutcome`; exactly one campaign is saved on success and none otherwise; the dialog state follows |
| CampaignForm.CreateCampaignModal.HandleCloseSuccessModal | src/app/components/dashboard/CreateCampaignModal.tsx:110-114 | closes the dialog and clears its data |
| InvestCard.NewInvestment | src/app/components/user/InvestCard.tsx:90-98 | the investment carries the ids, the typed amount, the time and the royalty or 0 |
| InvestCard.InvestOutcome | src/app/components/user/InvestCard.tsx:70-98 | an investment exactly when signed in, the amount passes and a user id exists; otherwise the first failed check |
| InvestCard.InvestmentCredits | src/app/utils/localStorage.ts:277-288 | a positive amount raises its campaign's total and adds one backer; no other campaign changes |
| InvestCard.AmountCheck | src/app/components/user/InvestCard.tsx:76-79 | an empty amount is refused; what passes reads as positive or as NaN; a positive whole number passes |
| InvestCard.GetRiskColorClass | src/app/components/user/InvestCard.tsx:57-68 | one of three colours: medium and high exactly for their labels, low otherwise |
| InvestCard.FundingBarWidth | src/app/components/user/InvestCard.tsx:157 | the width is the funded percentage, capped at 100 |
| InvestCard.InvestCardState.constructor | src/app/components/user/InvestCard.tsx:29-55 | the card starts with no amount and no dialog |
| InvestCard.InvestCardState.HandleInvest | src/app/components/user/InvestCard.tsx:70-123 | the outcome is `InvestOutcome`; on success one investment is saved and the campaign credited; otherwise nothing changes |
| InvestCard.InvestCardState.HandleCloseModal | src/app/components/user/InvestCard.tsx:125-128 | closes the dialog and clears the amount and the data |
| YourPath.WorksNeeded | src/app/components/music/YourPath.tsx:28-35 | one of 5, 10, 20 and 50; 10 whenever the level names Bronze |
| YourPath.NoneOfTheTiers | src/app/components/music/YourPath.tsx:28-35 | a level naming none of the tiers needs 5 works |
| YourPath.SilverTier | src/app/components/music/YourPath.tsx:31-32 | a Silver level without Bronze needs 20 works |
| YourPath.GoldTier | src/app/components/music/YourPath.tsx:33-34 | a Gold level without Bronze or Silver needs 50 works |
| YourPath.CreatorLevelWorks | src/app/components/music/YourPath.tsx:28-35 | the works needed at each creator level the ledger stores: 5, 20, 50, and 5 for Platinum |
| YourPath.InvestorLevelWorks | src/app/components/music/YourPath.tsx:28-35 | the works needed at each investor level: 10, 20, 50, and 5 for Platinum and Diamond |
| YourPath.Round | src/app/components/music/YourPath.tsx:45 | `Math.round` lies within half a unit of its argument |
| YourPath.Percentage | src/app/components/music/YourPath.tsx:38 | the percentage lies in 0..100 and is within half a unit of `min(works / needed × 100, 100)` |
| YourPath.FullExactlyAtGoal | src/app/components/music/YourPath.tsx:38 | the bar is full exactly when the works reach the goal |
| YourPath.LoadedPath | src/app/components/music/YourPath.tsx:16-48 | unchanged without a user or progress; otherwise the level, all stored works, the works needed and the rounded percentage of those works |
| YourPath.LoadedPathBounded | src/app/components/music/YourPath.tsx:16-48 | the shown percentage lies in 0..100 and is full exactly at the goal |
| Navbar.FormatAddress | src/app/components/Navbar.tsx:13-15 | the first six characters, "..." and the last four; shorter addresses are kept whole in each part |
| Navbar.FormatLongAddress | src/app/components/Navbar.tsx:13-15 | an address of ten or more characters shows as thirteen |
| Navbar.TenCharacterAddressKept | src/app/components/Navbar.tsx:13-15 | a ten-character address can be read back from its short form |
| Navbar.SameShortForm | src/app/components/Navbar.tsx:13-15 | two long addresses look alike exactly when their first six and last four characters agree |
| Navbar.Display | src/app/components/Navbar.tsx:60-85 | connect button, connected wallet or loading placeholder, each exactly in its case; the first wallet's short form when there is one |
| Navbar.OnlyFirstWalletShown | src/app/components/Navbar.tsx:10 | wallets after the first never change the bar |
| HeroDashboard.LocalPart | src/app/components/dashboard/HeroDashboard.tsx:16 | the text before the first '@', followed by '@' unless it is everything |
| HeroDashboard.Capitalize | src/app/components/dashboard/HeroDashboard.tsx:18 | same length; the first character upper-cased and the rest unchanged |
| HeroDashboard.GetUserName | src/app/components/dashboard/HeroDashboard.tsx:14-21 | "User" without an e-mail; otherwise the local part with its first letter capitalised |
| HeroDashboard.NameFromAddress | src/app/components/dashboard/HeroDashboard.tsx:14-21 | the name is empty exactly when the address starts with '@'; without '@' it is the whole address capitalised |
| HeroDashboard.NameOfAddress | src/app/components/dashboard/HeroDashboard.tsx:16-18 | the name of `local@domain` is `local` capitalised, whatever the domain |
| SideBar.Menu | src/app/components/SideBar.tsx:31-45 | each menu has five items |
| SideBar.InitialActiveMenu | src/app/components/SideBar.tsx:49-51 | the first item of the variant's menu starts highlighted |
| SideBar.Route | src/app/components/SideBar.tsx:53-60 | creator pages under /musician/, listener pages under /user/, and "/" exactly for the listener's Sign Out |
| SideBar.ExactlyOneHighlighted | src/app/components/SideBar.tsx:95 | whichever item is active, it is the only one highlighted |
| SideBar.MusicianRoutes | src/app/components/SideBar.tsx:31-37 | each creator item leads to /musician/ followed by its link |
| SideBar.UserRoutes | src/app/components/SideBar.tsx:39-45 | each listener item leads to /user/ followed by its link, except Sign Out, which leads to "/" |
| SideBar.SideBarState.constructor | src/app/components/SideBar.tsx:49-51 | the side bar starts on its menu's first item |
| SideBar.SideBarState.HandleClickMenu | src/app/components/SideBar.tsx:53-60 | the clicked item becomes active and the returned path is its route |

## Findings

| source | as written | input that shows it | evidently intended | confidence | as-written member | corrected member |
|---|---|---|---|---|---|---|
| src/app/components/dashboard/CreateCampaignModal.tsx:50-54 | `royalty <= 0 \|\| royalty > 50` refuses a royalty only when both comparisons with NaN fail | the royalty field cleared to "" (parseFloat gives NaN) passes the guard and is saved as a NaN royalty, which the JSON write stores as `null` | accept only a number above 0 and at most 50 | not executed | CampaignForm.SubmitRoyaltyAsWritten | CampaignForm.RoyaltyChecksAgree |

`CampaignForm.SubmitRoyaltyAsWritten` is the submit with the guard as
written, and `CampaignForm.SubmitAsWrittenDiffers` shows that it differs from
the intended submit on exactly that input. The rest of the model uses the
corrected check `CampaignForm.RoyaltyAccepted` (`SubmitOutcome`,
`HandleSubmit`). So the `royaltyPercentage` of a stored campaign is always a
number in (0, 50].

The consequence is worse than a NaN field. `saveCampaign` writes the list
with `JSON.stringify`, which writes NaN as `null`
(src/app/utils/localStorage.ts:126). Once read back, `calculateCreatorRoyalty`
computes `(100 - null) / 100`, which is 1
(src/app/utils/localStorage.ts:516). So the creator keeps all the revenue.
The pool the campaign promised its investors, `royaltyPercentage / 100` of
it, becomes 0. JSON encoding is outside the model, so this step is argued
from the code and not proved.

## Left out

- Persistence: JSON encoding, reading `localStorage` and the `catch` branches are out. The ledger's collections are fields of `LedgerStore.Ledger`. A write that throws (quota, private mode) is not modelled.
- `generateId`, `Date.now()` and `new Date()`: ids and times are parameters. Timestamps are milliseconds, not ISO strings.
- `saveAudioFile`, `getAudioFile`, `saveImageFile`, `getImageFile` and `openDB` are IndexedDB I/O. Only the references they produce and read are modelled. Whether the files were stored is a parameter of the create handler. `loadMediaFromReference` is modelled up to the store it reads.
- Floating point: numbers are exact reals plus NaN. Rounding, Infinity and `toString`/`toFixed` formatting are out. Stored `currentAmount` and `totalInvested` are modelled as numbers, not as their decimal text.
- JsNumber.ParseFloat: does not read "Infinity".
- JsNumber.ParseInt: reads base ten only. `parseInt` without a radix reads a "0x" prefix as hexadecimal.
- CampaignForm.SubmitOutcome: refuses a royalty field that reads as NaN. The dialog as written saves such a campaign with a NaN `royaltyPercentage`, which a real-valued field cannot hold. `SubmitRoyaltyAsWritten` models that path only up to the royalty it saves.
- CampaignForm.SubmitChecks: states the intended guard. For a NaN royalty it reports `InvalidRoyalty` where the dialog as written goes on to save (see Findings).
- CampaignForm.CreateCampaignModal.HandleSubmit: saves nothing for a NaN royalty. The dialog as written saves a campaign with a NaN royalty (see Findings).
- Input sanitisation of `<input type="number">` fields: the browser hands over "" or a valid number. The model takes such fields (the investment amount, the goal, the royalty, the durations) as free text. Its guards are therefore checked on more inputs than the forms can produce, and the NaN paths of `InvestCard.AmountCheck` are reachable only through that wider input.
- Progress.Recomputed: `totalRoyalty` is the exact play revenue, not its `toFixed(2)` text.
- CampaignForm.DeadlineOf: a day is 86400000 ms. `setDate` on local calendar days can differ across a daylight-saving change.
- `setTimeout(…, 500)` in the three forms: the dialog opens at once. Calls back to the parent (`onSuccess`, `onClose`, refresh) and `alert` messages are out. Alerts appear as the error values of the outcome functions.
- MusicPool: the backend `listMusic` request is a `Fetch` parameter, and so are the backend tracks' fields. `Math.random` closing hours are a parameter. Play/pause, `handleTogglePlay`, `handleClosePlayer`, the audio `error` and `loadedmetadata` listeners and the campaign-dialog launcher are UI state, and so is the profile panel.
- MusicPool.FormatCloseTime: requires hours under 24 or a whole number of days, the only values the options produce.
- MusicPool.FormatTime: requires a non-negative time; media time is never negative.
- The forms' text-change handlers (`handleTitle`, `handleArtist`, …) only assign a field. They are not separate methods.
- Privy: `authenticated`, `ready`, `user`, the wallets and the e-mail are parameters. `login`/`logout`, `router.push` (returned as a path) and all rendering are out.
- JsText.ToLower and JsText.UpperChar: map ASCII letters only. JavaScript also maps other Unicode letters.
- HeroDashboard: the mock transaction list is display data and is out.
- SideBar: `isOpen` and `onToggle` only show or hide the bar and are out.
- Concurrency: two tabs writing the same collection can lose an update. The model runs one handler at a time.
