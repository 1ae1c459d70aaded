# Kalinka: a verified model

Kalinka is a music server with plugins. This project models the parts of it whose
correctness is least obvious and proves what they are for:

- **The library's folders** (`FolderRange`, `FolderWalk`, `FolderSummary`, `Paging`). Tracks
  are rows with a path; folders are an index range over the paths. A query is a function over
  the rows and `fold` any function on names. Proved: the range is exact, the limit-bounded
  walk takes the first tracks of the sorted subtree, the grouped pass gives each subfolder's
  own summary, and listings page as one.
- **Filters** (`FilterClause`). SQL text is a sequence of tokens, `LIKE` and the genre test are
  left uninterpreted. Proved: reading the generated text back with its parameters filled in,
  left to right or by name, means what the filter says; text and parameters are put together
  apart, as the code does, and line up, in a UNION over any kinds too.
- **Popular listings** (`Popular`) dealt round robin from several sections, and when `more`
  can be relied on.
- **Playlists** (`Playlists`): a class over the table of rows, one transaction an operation, and
  every run of creating, deleting, adding and removing.
- **Ranking metrics** (`Metrics`, `AveragePrecision`, `Scoring`): nDCG as a rearrangement
  inequality over exact reals and any discount, average precision, and a cached row.
- **The MusicCast volume** (`VolumeDevice`, `VolumeProtocol`, `VolumeEvents`): the device as a
  class whose methods are what runs between two awaits, and the protocol as a machine over
  device, late amplifier, ordered echoes, knob, polls, time-outs and failures. Proved:
  convergence, what is shown meanwhile, no lost wake-up, termination of the internal steps,
  and that the newest request wins.
- **Bluetooth access** (`AccessLog`, `BluetoothTrust`, `PairingWindow`): the durable record of
  grants as a class with its file, every run of the receiver's operations effect by effect
  with a crash between any two, and the leased, time-limited pairing window.
- **The shared library connection** (`SharedConnection`): what a call's statements come to, and
  one lent connection against one per call, with transactions, snapshots held by cursors left part-way, writes by others, calls
  that react to what they read and end early, letting go cut short, and gathered tasks taking
  turns.
- **Music sources** (`MusicSources`) following written folders, and **folder and entity ids**
  (`FolderIds`, `EntityIds`) with UTF-8 and unpadded URL-safe base64 (section 5 of RFC 4648).

`Orders` and `Text` hold sorting, string order and string splitting, `Calls` how a call to a service
ends.

`dafny verify dfyconfig.toml` checks everything.

## What the proofs found

- How a Bluetooth device was trusted before a grant can be lost in five ways, each shown by a run
  in `BluetoothTrust`. Cleaning up compares the baseline with the last snapshot, which setting
  `Trusted` does not update (`StaleSnapshotKeepsTrust`); an admission reads its baseline from
  such a snapshot (`OldSnapshotMisleadsAdmission`); a Forget is rolled back, or its removal fails,
  when BlueZ has the device unpaired but still there (`RolledBackForgetKeepsTrust`,
  `SwallowedRemovalKeepsTrust`); a device is paired anew under a record that was kept
  (`ReappearedDeviceLosesTrust`). `Exact` is the condition on a step that rules out these and no
  more: `StepExact` and `RunExact` are if and only if, and `ExactIsSafe` shows that each step
  outside it has a continuation that loses the trust.
- A pairing window whose start fails after a device was admitted keeps that candidate; the next
  window opens with it and refuses every other device, and only then (`NextWindowAdmits`).
- `more` of the popular listing can be wrong for windows narrower than the number of sections
  (`Popular.NoMoreIsReliable`).
- nDCG leaves [0, 1] exactly when there is something to gain and some relevance is negative
  (`Scoring.GradedInRange`); similarities are not clamped in the code.
- Adding tracks without duplicates checks the playlist but not the call itself
  (`Playlists.NamedTwiceIsAddedTwice`); `AcceptedRepeats` says when that shows.
- `delete_playlist` says that a playlist's rows go with it by ON DELETE CASCADE, but foreign keys
  are never switched on for the connection: the rows stay, and a playlist created again under the
  same id has them all and counts none (`Playlists.DeletedTrackReturns`). `RunsCount` proves that
  of creating, deleting, adding and removing only creating over rows makes the statistics wrong.
  Likewise an add to an unknown playlist inserts rows.
- Several ids can name one folder (`FolderIds.OnlyCanonicalIdsReturn`).
- After a reconnection a change back to the level announced last is not announced, and a change
  or an echo that settles after the device is lost announces its volume as supported
  (`VolumeEvents`); `ClientsAreTold` gives the exact condition.
- Letting go of a shared connection restores it exactly when every cursor left part-way was
  closed: a close that fails, or is cancelled, leaves the later ones open
  (`SharedConnections.ReleaseRestores`, `UnclosedCursorHoldsBack`).

## Model

| member | source | states |
|---|---|---|
| `FolderRanges.RangeIsExact` | packages/kalinka-plugin-localfiles/src/kalinka_plugin_localfiles/input_module_db.py:155-196 | a path is strictly between `lo` and `hi` exactly if it strictly extends the folder's prefix, `/` included, and dropping `tail_start - 1` characters leaves its remainder |
| `FolderWalk.TrackIdsUnder` | packages/kalinka-plugin-localfiles/src/kalinka_plugin_localfiles/input_module_db.py:1279-1328 | for every library, limit, threshold and `fold` the walk terminates and gives the first `limit` ids of the whole subtree in listing order |
| `FolderWalk.WalkSubfolders` | packages/kalinka-plugin-localfiles/src/kalinka_plugin_localfiles/input_module_db.py:1306-1328 | what a larger folder's subfolders in turn and then its own tracks put in, up to the limit |
| `FolderWalk.WalkPlan` | packages/kalinka-plugin-localfiles/src/kalinka_plugin_localfiles/input_module_db.py:206-214 | the listing of a subtree is its subfolders' listings in name order, then its own tracks by name |
| `FolderWalk.ListingIsUnique` | packages/kalinka-plugin-localfiles/src/kalinka_plugin_localfiles/input_module_db.py:206-214 | the listing order leaves one arrangement of a subtree: any two lists of its tracks in that order are equal |
| `FolderWalk.SortedIsListing` | packages/kalinka-plugin-localfiles/src/kalinka_plugin_localfiles/input_module_db.py:199-214 | sorting a subtree by the per-segment key gives that arrangement |
| `FolderWalk.ListingCompares` | packages/kalinka-plugin-localfiles/src/kalinka_plugin_localfiles/input_module_db.py:199-214 | the key puts what is in subfolders before own files, subfolders and files by folded name and then name, and orders within one subfolder as its own listing |
| `FolderWalk.CanonicalIs` | packages/kalinka-plugin-localfiles/src/kalinka_plugin_localfiles/input_module_db.py:175-196 | the paths excluded are those whose remainder has an empty segment between slashes |
| `FolderWalk.FirstIdsAre` | packages/kalinka-plugin-localfiles/src/kalinka_plugin_localfiles/input_module_db.py:1303-1304 | the ids taken are those of the first rows, as many as the limit and the rows allow |
| `FolderWalk.OrderedSubfoldersAre` | packages/kalinka-plugin-localfiles/src/kalinka_plugin_localfiles/input_module_db.py:1307-1318 | the walk's subfolders are exactly the names with a track inside, each once, by folded name then raw name |
| `FolderWalk.OwnSorted` | packages/kalinka-plugin-localfiles/src/kalinka_plugin_localfiles/input_module_db.py:1321-1327 | a folder's own tracks sorted by name are in listing order among themselves |
| `FolderWalk.EmptySegmentIsTheFolder` | packages/kalinka-plugin-localfiles/src/kalinka_plugin_localfiles/input_module_db.py:175-196 | why paths with an empty segment are excluded: the subfolder named by one is the folder itself |
| `FolderSummaries.GroupIsSubfolder` | packages/kalinka-plugin-localfiles/src/kalinka_plugin_localfiles/input_module_db.py:223-249 | the rows the grouped pass puts under a name are the rows the subfolder's own query reads |
| `FolderSummaries.GroupSummary` | packages/kalinka-plugin-localfiles/src/kalinka_plugin_localfiles/input_module_db.py:1232-1277 | each subfolder's summary in the grouped pass is its own `get_folder_summary`, and it is kept exactly if `holds_tracks` says so |
| `FolderSummaries.SummaryIgnoresFilter` | packages/kalinka-plugin-localfiles/src/kalinka_plugin_localfiles/input_module_db.py:223-239 | the filter decides which subfolders are listed, not what their summaries count |
| `FolderSummaries.KeptAreListed` | packages/kalinka-plugin-localfiles/src/kalinka_plugin_localfiles/input_module_db.py:1232-1277 | under a filter the listed subfolders are exactly the names under which a kept track's path goes on, by folded name, then by the name |
| `FolderSummaries.CountsAgree` | packages/kalinka-plugin-localfiles/src/kalinka_plugin_localfiles/input_module_db.py:1252-1268 | the COUNT(DISTINCT name) over matched rows is the number of groups that HAVING MAX(matched) keeps: page and total, two queries, agree |
| `FolderSummaries.SubfolderPages` | packages/kalinka-plugin-localfiles/src/kalinka_plugin_localfiles/input_module_db.py:1232-1277 | every page of `list_subfolders` is that window of the whole listing, with each subfolder's own summary, and the total its other query gives is the listing's length |
| `FolderSummaries.FolderListingPages` | packages/kalinka-plugin-localfiles/src/kalinka_plugin_localfiles/localfiles.py:941-969 | a folder listing pages as one list: subfolders holding a kept track, each with its own summary, then the kept tracks of its own |
| `FolderSummaries.FolderTracksAre` | packages/kalinka-plugin-localfiles/src/kalinka_plugin_localfiles/input_module_db.py:1333-1365 | the tracks shown are exactly those of the library that the filter keeps and whose path is the folder's prefix and a file name; by folded file name, then by path, each once |
| `FolderSummaries.TotalsAddUp` | packages/kalinka-plugin-localfiles/src/kalinka_plugin_localfiles/input_module_db.py:282-302 | a folder's total is its direct tracks plus its subfolders' totals, and it counts exactly the subfolders that hold a track |
| `FolderSummaries.SummaryCounts` | packages/kalinka-plugin-localfiles/src/kalinka_plugin_localfiles/input_module_db.py:223-302 | a summary's total counts the tracks whose path goes on from the folder's prefix; its direct count and duration are over those that go on without a `/` |
| `Paging.PagesAsOne` | packages/kalinka-plugin-localfiles/src/kalinka_plugin_localfiles/localfiles.py:351-366 | for correct pagers every window over two listings is that window of them end to end, with their joint total |
| `Paging.JointPagesTile` | packages/kalinka-plugin-localfiles/src/kalinka_plugin_localfiles/localfiles.py:351-366 | consecutive pages of two listings join into one page of both |
| `Paging.WindowsTile` | packages/kalinka-plugin-localfiles/src/kalinka_plugin_localfiles/localfiles.py:354-366 | consecutive windows of a listing are one window |
| `Popular.InterleavedItems` | packages/kalinka-plugin-jamendo/src/kalinka_plugin_jamendo/jamendo.py:1037-1078 | the page holds, position by position, row `i // n` of section `i % n` where it exists, and `more` says whether a section filled its span |
| `Popular.Spans` | packages/kalinka-plugin-jamendo/src/kalinka_plugin_jamendo/jamendo.py:1056-1058 | each section's span starts at the row of its first position in the window and counts its positions there |
| `Popular.PositionCounted` | packages/kalinka-plugin-jamendo/src/kalinka_plugin_jamendo/jamendo.py:1056-1058 | every position of the window is one of the rows its section's span asks for |
| `Popular.DealOut` | packages/kalinka-plugin-jamendo/src/kalinka_plugin_jamendo/jamendo.py:1068-1073 | dealing the fetched pages out position by position gives the page, every index in bounds |
| `Popular.PagesTile` | packages/kalinka-plugin-jamendo/src/kalinka_plugin_jamendo/jamendo.py:1037-1078 | consecutive windows join into one |
| `Popular.EachRowOnce` | packages/kalinka-plugin-jamendo/src/kalinka_plugin_jamendo/jamendo.py:1044-1048 | a window shows every row whose position lies in it, no other, and none twice |
| `Popular.PageIsItsCells` | packages/kalinka-plugin-jamendo/src/kalinka_plugin_jamendo/jamendo.py:1068-1073 | each item of a page is the row its position names |
| `Popular.NoMoreMeansNothingLeft` | packages/kalinka-plugin-jamendo/src/kalinka_plugin_jamendo/jamendo.py:1075-1078 | with a window at least as wide as the number of sections, no `more` means that no section has a row at or past the end |
| `Popular.NarrowWindowMisleads` | packages/kalinka-plugin-jamendo/src/kalinka_plugin_jamendo/jamendo.py:1075-1078 | for every narrower window there are sections with rows left although `more` is false |
| `Popular.NoMoreIsReliable` | packages/kalinka-plugin-jamendo/src/kalinka_plugin_jamendo/jamendo.py:1050-1051 | so `more` being false can be relied on exactly when the window spans a whole round |
| `FilterClauses.FilterMeaning` | packages/kalinka-plugin-localfiles/src/kalinka_plugin_localfiles/input_module_db.py:785-843 | the generated text, its placeholders filled left to right from the list of parameters put together beside it, holds of a row exactly when every token matches a field, some `any` genre, every `all` genre and no `none` genre do |
| `FilterClauses.GenreWhere` | packages/kalinka-plugin-localfiles/src/kalinka_plugin_localfiles/input_module_db.py:805-829 | the loop over the genre lists grows clauses and parameters apart: the text joins them, the parameters are those of `any`, `all` and `none` in turn |
| `FilterClauses.TokenClauseIs` | packages/kalinka-plugin-localfiles/src/kalinka_plugin_localfiles/input_module_db.py:797-803 | the parameters of the nested comprehension are those of the text's placeholders, word by word and field by field |
| `FilterClauses.GenreClauseIs` | packages/kalinka-plugin-localfiles/src/kalinka_plugin_localfiles/input_module_db.py:815-829 | the parameters of the genre lists one after the other are those of the genre text's placeholders |
| `FilterClauses.TextMeans` | packages/kalinka-plugin-localfiles/src/kalinka_plugin_localfiles/input_module_db.py:786-803 | the text clause alone: every token matches some field |
| `FilterClauses.GenresMean` | packages/kalinka-plugin-localfiles/src/kalinka_plugin_localfiles/input_module_db.py:805-829 | the genre clause alone: some of `any`, all of `all`, none of `none` |
| `FilterClauses.NamingKeepsMeaning` | packages/kalinka-plugin-localfiles/src/kalinka_plugin_localfiles/input_module_db.py:261-266 | naming the placeholders of a text that names none binds each to the same parameter |
| `FilterClauses.NamedMeaning` | packages/kalinka-plugin-localfiles/src/kalinka_plugin_localfiles/input_module_db.py:261-266 | the filter's text with its placeholders named, bound by name, means what the filter says |
| `FilterClauses.UnionQuery` | packages/kalinka-plugin-localfiles/src/kalinka_plugin_localfiles/input_module_db.py:1118-1134 | the loop over the kinds grows branches and parameters apart: the union joins the one, the other is each branch's name, then what its filter takes |
| `FilterClauses.BranchBinds` | packages/kalinka-plugin-localfiles/src/kalinka_plugin_localfiles/input_module_db.py:1164-1189 | in one branch every placeholder gets its own value: the kind's name, the unknown id, the filter's parameters |
| `FilterClauses.UnionLinesUp` | packages/kalinka-plugin-localfiles/src/kalinka_plugin_localfiles/input_module_db.py:1102-1189 | for any list of kinds the flat list of parameters gives every placeholder of the paged union its own branch's value, LIMIT and OFFSET the page's |
| `Playlists.Library.AddTracks` | packages/kalinka-plugin-localfiles/src/kalinka_plugin_localfiles/input_module_db.py:1814-1914 | an add appends the accepted ids in input order at the next positions, returns their number, keeps positions 0 to n - 1 and the statistics, touches no other playlist, and changes nothing when it fails |
| `Playlists.Library.RemoveTracks` | packages/kalinka-plugin-localfiles/src/kalinka_plugin_localfiles/input_module_db.py:1952-2036 | a remove keeps the other entries in order, renumbers them 0 to n - 1, returns how many went, and changes nothing when it fails |
| `Playlists.NewRowsAt` | packages/kalinka-plugin-localfiles/src/kalinka_plugin_localfiles/input_module_db.py:1884-1905 | each new row has the next generated id, its track in the order given, and the next position |
| `Playlists.AddedCounts` | packages/kalinka-plugin-localfiles/src/kalinka_plugin_localfiles/input_module_db.py:2038-2058 | an add raises count and duration by the tracks put in and how long they play |
| `Playlists.Library.CreatePlaylist` | packages/kalinka-plugin-localfiles/src/kalinka_plugin_localfiles/input_module_db.py:1724-1756 | a playlist is made with both statistics 0, refused if its id is taken; they are right exactly if no rows carry the id |
| `Playlists.Library.DeletePlaylist` | packages/kalinka-plugin-localfiles/src/kalinka_plugin_localfiles/input_module_db.py:1758-1773 | the playlist goes, every row stays |
| `Playlists.RunsCount` | packages/kalinka-plugin-localfiles/src/kalinka_plugin_localfiles/input_module_db.py:1724-2036 | in every run of operations positions stay 0 to n - 1, and the statistics are right throughout if and only if no playlist is created under an id that still has rows |
| `Playlists.OperationKeeps` | packages/kalinka-plugin-localfiles/src/kalinka_plugin_localfiles/input_module_db.py:1724-2036 | each operation keeps every playlist's numbering, leaves the others alone, and miscounts exactly by creating over rows |
| `Playlists.RecreatedIsCounted` | packages/kalinka-plugin-localfiles/src/kalinka_plugin_localfiles/input_module_db.py:1758-1773 | a playlist deleted and created again is counted rightly if and only if it was empty |
| `Playlists.DeletedTrackReturns` | packages/kalinka-plugin-localfiles/src/kalinka_plugin_localfiles/input_module_db.py:1758-1773 | an input: a playlist of one track, deleted and created again, shows the track and counts none |
| `Playlists.AcceptedIs` | packages/kalinka-plugin-localfiles/src/kalinka_plugin_localfiles/input_module_db.py:1842-1877 | without duplicates a track is taken exactly if it is asked for, known and not yet in the playlist; with them, if asked for and known |
| `Playlists.AcceptedLast` | packages/kalinka-plugin-localfiles/src/kalinka_plugin_localfiles/input_module_db.py:1836-1877 | the ids taken keep the order asked for: each follows those taken before it |
| `Playlists.AcceptedRepeats` | packages/kalinka-plugin-localfiles/src/kalinka_plugin_localfiles/input_module_db.py:1859-1874 | without duplicates what is taken repeats nothing if and only if every id named twice is unknown or played already |
| `Playlists.AddRepeatsNothing` | packages/kalinka-plugin-localfiles/src/kalinka_plugin_localfiles/input_module_db.py:1859-1874 | so a playlist is free of repeats after such an add if and only if it was before and no id taken is named twice |
| `Playlists.NamedTwiceIsAddedTwice` | packages/kalinka-plugin-localfiles/src/kalinka_plugin_localfiles/input_module_db.py:1859-1874 | an input: the check is against the playlist only, so a track named twice in one call is added twice |
| `Playlists.AddedFits` | packages/kalinka-plugin-localfiles/src/kalinka_plugin_localfiles/input_module_db.py:1884-1905 | rows put at MAX(position) + 1 continue the numbering and are counted, for this playlist and for no other |
| `Playlists.RemovedFits` | packages/kalinka-plugin-localfiles/src/kalinka_plugin_localfiles/input_module_db.py:1986-2027 | deleting all and inserting what ORDER BY position gave renumbers the survivors in their order and counts them |
| `Playlists.KeptIs` | packages/kalinka-plugin-localfiles/src/kalinka_plugin_localfiles/input_module_db.py:1974-1984 | an entry survives exactly if its own id is not among those removed |
| `Playlists.KeptLast` | packages/kalinka-plugin-localfiles/src/kalinka_plugin_localfiles/input_module_db.py:1974-1996 | the entries that survive keep their order |
| `Metrics.NoRankingBeatsIdeal` | benchmarks/sdd/sddbench/metrics.py:107-113 | no ranking whose gains are drawn from the ideal's gains more than the best k in descending order, for any positive discount that never grows |
| `Metrics.NdcgBounds` | benchmarks/sdd/sddbench/metrics.py:111-113 | nDCG is in [0, 1] for such a ranking |
| `Metrics.NdcgMeans` | benchmarks/sdd/sddbench/metrics.py:107-113 | it is the gain of the first k answers over that of the first k of the ideal's gains in descending order, 0 when nothing is to be gained |
| `Metrics.DcgLast` | benchmarks/sdd/sddbench/metrics.py:107-108 | each gain counts times the weight of its position |
| `Metrics.SomethingToGain` | benchmarks/sdd/sddbench/metrics.py:111-113 | the ideal gain is positive exactly when k is and some gain is |
| `Metrics.TopSums` | benchmarks/sdd/sddbench/metrics.py:112-113 | no k or fewer of a bag of gains sum to more than its first k in descending order |
| `Metrics.Dominated` | benchmarks/sdd/sddbench/metrics.py:107-108 | weights that never grow keep a lead that every prefix has |
| `Scoring.GradedInRange` | benchmarks/sdd/sddbench/metrics.py:116-148 | nDCG of every ranking of distinct tracks is in [0, 1] exactly when there is nothing to gain or no relevance is negative |
| `Scoring.BestFirstScoresOne` | benchmarks/sdd/sddbench/metrics.py:116-137 | a ranking that opens with the top k in descending order scores 1 when there is something to gain |
| `Scoring.OwnCaptionScoresOne` | benchmarks/sdd/sddbench/metrics.py:123-128 | a caption's own track has relevance 1 to it when the caption is as similar to itself as anything is |
| `Scoring.RowMeans` | benchmarks/sdd/sddbench/metrics.py:169-182 | a caption's row has every track in turn with the similarity of its closest caption, unknown ones counting 0 |
| `Scoring.ScoresAt` | benchmarks/sdd/sddbench/metrics.py:116-148 | each answer counts for its own entry of the row, and for nothing if it has none |
| `Scoring.Relevance.Row` | benchmarks/sdd/sddbench/metrics.py:169-182 | the row kept from the last caption is never used for another: the result is the row worked out afresh |
| `Scoring.Relevance.Of` | benchmarks/sdd/sddbench/metrics.py:184-185 | a track's relevance is its entry in the fresh row, or 0 |
| `Scoring.Relevance.AllFor` | benchmarks/sdd/sddbench/metrics.py:187-188 | all relevances of the fresh row |
| `Scoring.SetScoresInRange` | benchmarks/sdd/sddbench/metrics.py:248-282 | average precision and nDCG against a set are in [0, 1] for every ranking of distinct tracks, whatever part of it is judged |
| `Scoring.UntaggedCountsForNothing` | benchmarks/sdd/sddbench/metrics.py:256-264 | a track outside the corpus, wherever it is ranked, changes neither score |
| `Scoring.AverageIsOne` | benchmarks/sdd/sddbench/metrics.py:262-274 | average precision is 1 exactly when some track is relevant, all of them are judged and ranked, and no other judged track is ahead of one |
| `Scoring.PerfectNdcg` | benchmarks/sdd/sddbench/metrics.py:262-278 | then nDCG is 1 too, for every k |
| `Scoring.RelevantFirstScoresOne` | benchmarks/sdd/sddbench/metrics.py:262-278 | a ranking of judged tracks that opens with the relevant ones in any order scores 1 in both |
| `AveragePrecisions.AveragePrecision` | benchmarks/sdd/sddbench/metrics.py:230-245 | the running sum is the sum of the precisions at the ranks that hold a relevant track, over the total |
| `AveragePrecisions.NextAnswer` | benchmarks/sdd/sddbench/metrics.py:230-245 | one more answer adds nothing or, if relevant, the share of relevant ones so far over the total |
| `AveragePrecisions.AverageBounds` | benchmarks/sdd/sddbench/metrics.py:230-245 | it is in [0, 1] when no more is found than there is, and 1 exactly when all is found and put first |
| `AveragePrecisions.EarlierIsBetter` | benchmarks/sdd/sddbench/metrics.py:230-245 | moving a hit ahead of a miss raises it |
| `MusicCast.VolumeDevice.SetVolume` | packages/kalinka-plugin-musiccast/src/kalinka_plugin_musiccast/musiccast.py:945-961 | the device after a request, as the protocol's step |
| `MusicCast.SetVolumeShows` | packages/kalinka-plugin-musiccast/src/kalinka_plugin_musiccast/musiccast.py:945-961 | a request while ready is clamped, shown at once and queued with a live sender; otherwise nothing changes |
| `MusicCast.VolumeDevice.OnReportedVolume` | packages/kalinka-plugin-musiccast/src/kalinka_plugin_musiccast/musiccast.py:995-1013 | the loop that pops confirmed levels does what the protocol's step says |
| `MusicCast.VolumeDevice.SendVolume` | packages/kalinka-plugin-musiccast/src/kalinka_plugin_musiccast/musiccast.py:963-983 | one pass of the sender's loop: send the queued level, return, or wait for an echo |
| `MusicCast.VolumeDevice.SendVolumeFailed` | packages/kalinka-plugin-musiccast/src/kalinka_plugin_musiccast/musiccast.py:973-977 | a failed send gives up what is queued and unconfirmed and starts rediscovery |
| `MusicCast.VolumeDevice.ReconcileVolume` | packages/kalinka-plugin-musiccast/src/kalinka_plugin_musiccast/musiccast.py:984-993 | what a reconciliation reports, or none, and the sender's next pass |
| `MusicCast.VolumeDevice.MarkUnavailable` | packages/kalinka-plugin-musiccast/src/kalinka_plugin_musiccast/musiccast.py:857-881 | a lost connection drops what is queued and unconfirmed and wakes the sender |
| `MusicCast.VolumeDevice.RediscoverDevice` | packages/kalinka-plugin-musiccast/src/kalinka_plugin_musiccast/musiccast.py:883-895 | only the first loss of a ready device marks it unavailable |
| `MusicCast.VolumeDevice.GetReady` | packages/kalinka-plugin-musiccast/src/kalinka_plugin_musiccast/musiccast.py:382-423 | a successful probe sets the level and makes the device ready |
| `MusicCast.VolumeDevice.CacheVolume` | packages/kalinka-plugin-musiccast/src/kalinka_plugin_musiccast/musiccast.py:1024-1029 | the cached level becomes the reported one |
| `MusicCast.ConfirmKeepsEnd` | packages/kalinka-plugin-musiccast/src/kalinka_plugin_musiccast/musiccast.py:1004-1009 | a report leaves the later sends unconfirmed, in order |
| `MusicCast.ConfirmLeaves` | packages/kalinka-plugin-musiccast/src/kalinka_plugin_musiccast/musiccast.py:1004-1009 | a report leaves exactly what was sent after the oldest send of its level |
| `MusicCast.ReportedMeans` | packages/kalinka-plugin-musiccast/src/kalinka_plugin_musiccast/musiccast.py:995-1013 | a level that was sent confirms its oldest send and all before it and shows nothing new; any other is shown unless a newer one is queued or unconfirmed |
| `MusicCast.ConfirmNewest` | packages/kalinka-plugin-musiccast/src/kalinka_plugin_musiccast/musiccast.py:1004-1009 | if a report leaves nothing unconfirmed it was of the newest send |
| `VolumeProtocol.StepKeeps` | packages/kalinka-plugin-musiccast/src/kalinka_plugin_musiccast/musiccast.py:857-1029 | every step of device, amplifier, echo channel and failures keeps the protocol's invariant |
| `VolumeProtocol.VolumeConverges` | packages/kalinka-plugin-musiccast/src/kalinka_plugin_musiccast/musiccast.py:945-1029 | in every run without a lost echo or an unanswered reconciliation: ready with nothing queued, unconfirmed, reconciling or echoing, the cached level is the amplifier's |
| `VolumeProtocol.OutstandingLevels` | packages/kalinka-plugin-musiccast/src/kalinka_plugin_musiccast/musiccast.py:945-1013 | in every run: while a level is queued or unconfirmed the newest one requested is shown and has a sender, the unconfirmed levels end those sent, and a waiting sender is woken exactly when there is something to do |
| `VolumeProtocol.SettledRun` | packages/kalinka-plugin-musiccast/src/kalinka_plugin_musiccast/musiccast.py:963-993 | a run of internal steps that has come to its end is quiet with the cached level the amplifier's |
| `VolumeProtocol.InternalRunsEnd` | packages/kalinka-plugin-musiccast/src/kalinka_plugin_musiccast/musiccast.py:963-993 | internal steps are bounded by a measure of the work left |
| `VolumeProtocol.SomeStep` | packages/kalinka-plugin-musiccast/src/kalinka_plugin_musiccast/musiccast.py:963-993 | while there is something left to do some internal step is possible |
| `VolumeProtocol.Settles` | packages/kalinka-plugin-musiccast/src/kalinka_plugin_musiccast/musiccast.py:963-993 | from every reachable state internal steps lead to a quiet one |
| `VolumeProtocol.RequestIsSet` | packages/kalinka-plugin-musiccast/src/kalinka_plugin_musiccast/musiccast.py:945-993 | in every run that lost no report: a request made while ready that nothing disturbs ends set and shown, at the level asked for or the nearest the amplifier has |
| `VolumeProtocol.EchoEndsTheWait` | packages/kalinka-plugin-musiccast/src/kalinka_plugin_musiccast/musiccast.py:945-1013 | an undisturbed request is over with its echo: sent, applied, echoed and confirmed, and no wait runs out |
| `VolumeProtocol.AmplifierIsKnown` | packages/kalinka-plugin-musiccast/src/kalinka_plugin_musiccast/musiccast.py:382-423 | in every run the volume can be set exactly while the device is ready, and then the maximum it goes by is the amplifier's |
| `VolumeProtocol.FailureGivesUp` | packages/kalinka-plugin-musiccast/src/kalinka_plugin_musiccast/musiccast.py:857-895 | a failure of the network leaves nothing queued or waited for, nobody going on sending, and the device lost |
| `VolumeProtocol.FailedReconciliationGoesOn` | packages/kalinka-plugin-musiccast/src/kalinka_plugin_musiccast/musiccast.py:984-993 | a reconciliation that fails by itself only ends the wait; a level queued meanwhile is sent |
| `VolumeProtocol.LostEchoMisleads` | packages/kalinka-plugin-musiccast/src/kalinka_plugin_musiccast/musiccast.py:326-327 | a lost echo of a knob turn leaves the cached level wrong with nothing under way |
| `VolumeProtocol.PollMakesUp` | packages/kalinka-plugin-musiccast/src/kalinka_plugin_musiccast/musiccast.py:628-661 | the next poll makes up for any loss once the echoes under way are in |
| `VolumeProtocol.ChangeMakesUp` | packages/kalinka-plugin-musiccast/src/kalinka_plugin_musiccast/musiccast.py:995-1013 | so does the next change the amplifier makes |
| `VolumeEvents.ClientsAreTold` | packages/kalinka-plugin-musiccast/src/kalinka_plugin_musiccast/musiccast.py:555-620 | all through a run clients know level and availability whenever nothing waits, if and only if each settling finds either a level sent last that they know, or a new level of a device that is there |
| `VolumeEvents.SettlingTells` | packages/kalinka-plugin-musiccast/src/kalinka_plugin_musiccast/musiccast.py:588-620 | settling tells level and availability as they are exactly under that condition |
| `VolumeEvents.ReconnectionHidesAChange` | packages/kalinka-plugin-musiccast/src/kalinka_plugin_musiccast/musiccast.py:413-415 | after a reconnection that told another level, going back to the level sent last is not announced |
| `VolumeEvents.LateEventRevivesLostDevice` | packages/kalinka-plugin-musiccast/src/kalinka_plugin_musiccast/musiccast.py:606-620 | an event still waiting when the device is lost announces its volume as supported |
| `VolumeEvents.LateEchoRevivesLostDevice` | packages/kalinka-plugin-musiccast/src/kalinka_plugin_musiccast/musiccast.py:711-736 | an input: an echo handled after the loss announces its level as supported |
| `VolumeEvents.EventSender.Settle` | packages/kalinka-plugin-musiccast/src/kalinka_plugin_musiccast/musiccast.py:573-620 | the debounced sender after a quiet spell, as the step the lemmas speak of |
| `AccessLog.AudioAccess.Begin` | packages/kalinka-plugin-bluetooth/src/kalinka_plugin_bluetooth/pairing.py:75-91 | a grant in cleanup is refused, an existing record left as it is, otherwise a pending record with the baseline is written; nothing changes when writing fails |
| `AccessLog.AudioAccess.Commit` | packages/kalinka-plugin-bluetooth/src/kalinka_plugin_bluetooth/pairing.py:93-109 | only this record becomes allowed, in memory and on disk alike |
| `AccessLog.AudioAccess.Forget` | packages/kalinka-plugin-bluetooth/src/kalinka_plugin_bluetooth/pairing.py:96-109 | only this record becomes revoked |
| `AccessLog.AudioAccess.ForgetBond` | packages/kalinka-plugin-bluetooth/src/kalinka_plugin_bluetooth/pairing.py:111-119 | only this record becomes forgetting, its baseline kept, or one without a baseline is made |
| `AccessLog.AudioAccess.RecordCleaned` | packages/kalinka-plugin-bluetooth/src/kalinka_plugin_bluetooth/pairing.py:121-127 | only this record goes, and only if it is not allowed |
| `AccessLog.AudioAccess.Cleanup` | packages/kalinka-plugin-bluetooth/src/kalinka_plugin_bluetooth/pairing.py:134-154 | trust is written exactly if the snapshot shows it other than the baseline, and the record goes only after trust and audio are dealt with |
| `AccessLog.AudioAccess.Persist` | packages/kalinka-plugin-bluetooth/src/kalinka_plugin_bluetooth/pairing.py:156-180 | memory and disk are equal after every write, failed ones included |
| `AccessLog.SameRecord` | packages/kalinka-plugin-bluetooth/src/kalinka_plugin_bluetooth/pairing.py:75-109 | two spellings of an address name one record exactly when they differ in case only |
| `BluetoothTrust.StepExact` | packages/kalinka-plugin-bluetooth/src/kalinka_plugin_bluetooth/pairing.py:75-180 | every effect, failure, cancellation and crash keeps the device's trust recoverable if and only if it meets its own condition on snapshot, baseline and record |
| `BluetoothTrust.RunExact` | packages/kalinka-plugin-bluetooth/src/kalinka_plugin_bluetooth/pairing.py:75-154 | a run keeps it recoverable throughout if and only if its every step meets that condition |
| `BluetoothTrust.ExactIsSafe` | packages/kalinka-plugin-bluetooth/src/kalinka_plugin_bluetooth/pairing.py:75-154 | the condition is not stronger than it need be: a step meets it if and only if no continuation that does so loses how the device was trusted |
| `BluetoothTrust.TrustIsRecoverable` | packages/kalinka-plugin-bluetooth/src/kalinka_plugin_bluetooth/pairing.py:75-154 | after such a run a device still paired is trusted as before or its record says how it was, and one without a record is trusted as before |
| `BluetoothTrust.CleaningRestores` | packages/kalinka-plugin-bluetooth/src/kalinka_plugin_bluetooth/pairing.py:143-152 | cleaning up leaves the baseline exactly if the device already had it or the snapshot shows it otherwise |
| `BluetoothTrust.CloseDenies` | packages/kalinka-plugin-bluetooth/src/kalinka_plugin_bluetooth/pairing.py:574-592 | closing the window denies a device let in and not yet allowed, written before anything is cleaned up |
| `BluetoothTrust.CloseSpares` | packages/kalinka-plugin-bluetooth/src/kalinka_plugin_bluetooth/pairing.py:574-592 | it denies no other |
| `BluetoothTrust.CleanUpRestores` | packages/kalinka-plugin-bluetooth/src/kalinka_plugin_bluetooth/pairing.py:134-154 | an uninterrupted clean-up by a true snapshot ends at the record's baseline, without a record |
| `BluetoothTrust.NothingToCleanUp` | packages/kalinka-plugin-bluetooth/src/kalinka_plugin_bluetooth/pairing.py:134-137 | without a record, or with an allowed one, cleaning up touches nothing |
| `BluetoothTrust.ClosedWindowTakesBack` | packages/kalinka-plugin-bluetooth/src/kalinka_plugin_bluetooth/pairing.py:574-592 | after any run that keeps trust recoverable, a window closed on such a device leaves it trusted as when it appeared, and no record |
| `BluetoothTrust.RevokeTakesBack` | packages/kalinka-plugin-bluetooth/src/kalinka_plugin_bluetooth/__init__.py:435-447 | revoking takes an access back the same way |
| `BluetoothTrust.GrantAllows` | packages/kalinka-plugin-bluetooth/src/kalinka_plugin_bluetooth/__init__.py:448-467 | an uninterrupted grant trusts a paired device and allows it, with its own trust or the standing record's baseline kept |
| `BluetoothTrust.CompletingAllows` | packages/kalinka-plugin-bluetooth/src/kalinka_plugin_bluetooth/pairing.py:340-368 | a device let in and completed is trusted and allowed, and the window over |
| `BluetoothTrust.DeniedIsRefused` | packages/kalinka-plugin-bluetooth/src/kalinka_plugin_bluetooth/pairing.py:75-86 | a denied device is neither granted access nor let in |
| `BluetoothTrust.ForgetDrops` | packages/kalinka-plugin-bluetooth/src/kalinka_plugin_bluetooth/pairing.py:472-512 | an uninterrupted Forget leaves neither bond nor record |
| `BluetoothTrust.RollbackTakesBack` | packages/kalinka-plugin-bluetooth/src/kalinka_plugin_bluetooth/__init__.py:262-287 | a grant cut short is taken back, a Forget cut short finished once the device is no longer paired |
| `BluetoothTrust.FailureKeepsRecord` | packages/kalinka-plugin-bluetooth/src/kalinka_plugin_bluetooth/pairing.py:134-154 | an effect that fails ends its operation and leaves the record as it is |
| `BluetoothTrust.CrashKeepsRecord` | packages/kalinka-plugin-bluetooth/src/kalinka_plugin_bluetooth/pairing.py:48-73 | a crash loses the window and what is under way, nothing written |
| `BluetoothTrust.LetInOnlyWhileLive` | packages/kalinka-plugin-bluetooth/src/kalinka_plugin_bluetooth/pairing.py:340-366 | a device is let in only while the window is live, neither denied nor allowed already, and by the snapshot only if that shows it paired |
| `BluetoothTrust.WindowEnds` | packages/kalinka-plugin-bluetooth/src/kalinka_plugin_bluetooth/pairing.py:325-350 | none is after the window expired, closed or completed, or after a crash |
| `BluetoothTrust.CancelLetsGo` | packages/kalinka-plugin-bluetooth/src/kalinka_plugin_bluetooth/pairing.py:333-338 | an agent's cancellation lets go of the candidate and of nothing else |
| `BluetoothTrust.UnpairedIsRefused` | packages/kalinka-plugin-bluetooth/src/kalinka_plugin_bluetooth/__init__.py:448-455 | a device that is not paired is granted nothing |
| `BluetoothTrust.GrantedRun` | packages/kalinka-plugin-bluetooth/src/kalinka_plugin_bluetooth/__init__.py:450-467 | the grant the following inputs start from is a run from nothing |
| `BluetoothTrust.StaleSnapshotKeepsTrust` | packages/kalinka-plugin-bluetooth/src/kalinka_plugin_bluetooth/pairing.py:143-152 | an input: granted and revoked before the next refresh, a device stays trusted with no record |
| `BluetoothTrust.CleanedRun` | packages/kalinka-plugin-bluetooth/src/kalinka_plugin_bluetooth/pairing.py:134-154 | revoked after a refresh and cleaned up, the device is as before the grant and the snapshot is not |
| `BluetoothTrust.OldSnapshotMisleadsAdmission` | packages/kalinka-plugin-bluetooth/src/kalinka_plugin_bluetooth/pairing.py:439-455 | an input: cleaned up and admitted again before the next refresh, a device is later set trusted, which it never was |
| `BluetoothTrust.RolledBackForgetKeepsTrust` | packages/kalinka-plugin-bluetooth/src/kalinka_plugin_bluetooth/__init__.py:264-278 | an input: a Forget cut short and rolled back once BlueZ has the device unpaired drops the record and keeps the trust |
| `BluetoothTrust.SwallowedRemovalKeepsTrust` | packages/kalinka-plugin-bluetooth/src/kalinka_plugin_bluetooth/backend.py:349-372 | an input: a removal that fails on a device unpaired by then counts as done, so the record goes and the trust stays |
| `BluetoothTrust.ForgottenIsLost` | packages/kalinka-plugin-bluetooth/src/kalinka_plugin_bluetooth/backend.py:340-346 | paired again, such a device is let in with nothing to say it was not trusted |
| `BluetoothTrust.ReappearedDeviceLosesTrust` | packages/kalinka-plugin-bluetooth/src/kalinka_plugin_bluetooth/pairing.py:75-91 | an input: a device paired anew as trusted under a record that was kept is set to what it was before |
| `BluetoothTrust.BaselineNeverOverwritten` | packages/kalinka-plugin-bluetooth/src/kalinka_plugin_bluetooth/pairing.py:75-119 | no step changes the baseline of a record that stays |
| `BluetoothTrust.AllowedOnlyFromPending` | packages/kalinka-plugin-bluetooth/src/kalinka_plugin_bluetooth/pairing.py:93-94 | access becomes allowed only from a pending record, by the end of a grant or by the window's live candidate |
| `BluetoothTrust.DenialIsDurable` | packages/kalinka-plugin-bluetooth/src/kalinka_plugin_bluetooth/pairing.py:75-127 | a revoked or forgetting record stays denied, crashes included, for as long as it is there |
| `BluetoothTrust.WayBackToAllowed` | packages/kalinka-plugin-bluetooth/src/kalinka_plugin_bluetooth/__init__.py:264-287 | a device denied once and allowed later had its record dropped and then began again pending |
| `BluetoothTrust.EachDeviceRuns` | packages/kalinka-plugin-bluetooth/src/kalinka_plugin_bluetooth/__init__.py:264-287 | a run over any number of devices is a run of its own for each |
| `BluetoothTrust.EveryDeviceIsRecoverable` | packages/kalinka-plugin-bluetooth/src/kalinka_plugin_bluetooth/pairing.py:75-154 | the recoverability of trust, for every device of such a run |
| `Pairing.PairingWindow.Start` | packages/kalinka-plugin-bluetooth/src/kalinka_plugin_bluetooth/pairing.py:241-304 | starting up to the first property: busy without the lease, otherwise the lease and what was there before are held |
| `Pairing.PairingWindow.SetNext` | packages/kalinka-plugin-bluetooth/src/kalinka_plugin_bluetooth/pairing.py:305-323 | each property set in turn; an error closes the window and leaves restoring to do |
| `Pairing.PairingWindow.Restore` | packages/kalinka-plugin-bluetooth/src/kalinka_plugin_bluetooth/pairing.py:515-550 | the loop writes every property back, passing over failures, until a cancellation ends it; either way the lease is let go |
| `Pairing.PairingWindow.Admit` | packages/kalinka-plugin-bluetooth/src/kalinka_plugin_bluetooth/pairing.py:340-350 | a device becomes the candidate only while active and with no other |
| `Pairing.PairingWindow.CleanedUp` | packages/kalinka-plugin-bluetooth/src/kalinka_plugin_bluetooth/pairing.py:583-592 | however the candidates' cleanup ends they are cleared |
| `Pairing.EveryRun` | packages/kalinka-plugin-bluetooth/src/kalinka_plugin_bluetooth/pairing.py:241-323 | in every run there is at most one candidate, and while the guard is free the lease is held exactly if the window is active, and the agent registered only then |
| `Pairing.StartOpens` | packages/kalinka-plugin-bluetooth/src/kalinka_plugin_bluetooth/pairing.py:241-323 | a start that nothing fails leaves the adapter pairable, discoverable and with the time given, what was there before kept |
| `Pairing.FailedStartChangesNothing` | packages/kalinka-plugin-bluetooth/src/kalinka_plugin_bluetooth/pairing.py:262-323 | one that fails before the first property, at any call, ends with every property as it was, whatever restoring manages, and the lease free |
| `Pairing.FailingPropertyEnds` | packages/kalinka-plugin-bluetooth/src/kalinka_plugin_bluetooth/pairing.py:305-323 | one that fails at a property changes that property at most, and the window is over |
| `Pairing.CloseTakesBack` | packages/kalinka-plugin-bluetooth/src/kalinka_plugin_bluetooth/pairing.py:515-593 | a close whose every write succeeds leaves the window as if never opened |
| `Pairing.GivesWay` | packages/kalinka-plugin-bluetooth/src/kalinka_plugin_bluetooth/pairing.py:333-368 | a failed admission or a cancelled pairing makes room for the next device |
| `Pairing.WindowLeavesNothing` | packages/kalinka-plugin-bluetooth/src/kalinka_plugin_bluetooth/pairing.py:515-593 | after a failed start or a close every property whose restoring write succeeds is as before the window |
| `Pairing.WrittenBackIs` | packages/kalinka-plugin-bluetooth/src/kalinka_plugin_bluetooth/pairing.py:533-544 | each property written back is back whatever becomes of the others, and one that was right stays so |
| `Pairing.NextWindowAdmits` | packages/kalinka-plugin-bluetooth/src/kalinka_plugin_bluetooth/pairing.py:305-350 | after a start that fails at a property, the next active window admits another device if and only if none was admitted before the failure |
| `Pairing.FailedStartKeepsCandidate` | packages/kalinka-plugin-bluetooth/src/kalinka_plugin_bluetooth/pairing.py:321-323 | an input: a start that fails after an admission keeps the candidate, and the next window admits no other |
| `SharedConnections.LibraryConnection.Release` | packages/kalinka-plugin-localfiles/src/kalinka_plugin_localfiles/db_connection.py:169-178 | the loop closes cursors in order up to a failure; then rollback and row factory |
| `SharedConnections.LibraryConnection.Fetch` | packages/kalinka-plugin-localfiles/src/kalinka_plugin_localfiles/db_connection.py:154-155 | a read gives what the connection sees and may hold its snapshot |
| `SharedConnections.LibraryConnection.Execute` | packages/kalinka-plugin-localfiles/src/kalinka_plugin_localfiles/db_connection.py:154-155 | a change opens a transaction on the snapshot, or is refused past it |
| `SharedConnections.LibraryConnection.CommitChanges` | packages/kalinka-plugin-localfiles/src/kalinka_plugin_localfiles/db_connection.py:160-161 | a commit makes the transaction the database |
| `SharedConnections.ReleaseRestores` | packages/kalinka-plugin-localfiles/src/kalinka_plugin_localfiles/db_connection.py:169-178 | a call on the lent connection is as on one of its own, the connection as just opened, exactly when no cursor that letting go did not reach was left part-way |
| `SharedConnections.ReadsOwnChanges` | packages/kalinka-plugin-localfiles/src/kalinka_plugin_localfiles/db_connection.py:154-161 | a query reads the database with all changes the call made before it, in order, through the row factory set last |
| `SharedConnections.CommittedInOrder` | packages/kalinka-plugin-localfiles/src/kalinka_plugin_localfiles/db_connection.py:154-178 | what a call leaves is the database with the changes before its last commit made in order, and no other |
| `SharedConnections.PartWayKeepsSnapshot` | packages/kalinka-plugin-localfiles/src/kalinka_plugin_localfiles/db_connection.py:124-131 | a query left part-way keeps the call on its snapshot whatever it reads after, and once others have written its change is refused and ends it |
| `SharedConnections.SeenThroughKeepsNothing` | packages/kalinka-plugin-localfiles/src/kalinka_plugin_localfiles/db_connection.py:124-131 | after a query seen through the call reads what others write next, and its changes build on it |
| `SharedConnections.CommittingLetsOthersWrite` | packages/kalinka-plugin-localfiles/src/kalinka_plugin_localfiles/db_connection.py:124-131 | others write nothing while changes are uncommitted; after the commit they do, and a cursor left part-way still reads what was committed |
| `SharedConnections.UnclosedCursorHoldsBack` | packages/kalinka-plugin-localfiles/src/kalinka_plugin_localfiles/db_connection.py:124-131 | what an unclosed cursor does to the next call: it reads the old snapshot and its change is refused |
| `SharedConnections.SharingIsNotSharing` | packages/kalinka-plugin-localfiles/src/kalinka_plugin_localfiles/db_connection.py:66-94 | calls that may react to what they read: the lent connection is as just opened after each if and only if letting go always reaches what was left part-way, and then database and reads are those of a connection each |
| `SharedConnections.GatheredTasksAreSerial` | packages/kalinka-plugin-localfiles/src/kalinka_plugin_localfiles/db_connection.py:22-44 | however tasks take turns, between turns everything is as after their calls one by one, each task's in its order |
| `SharedConnections.TurnsGoOn` | packages/kalinka-plugin-localfiles/src/kalinka_plugin_localfiles/db_connection.py:32-44 | some turn is always possible while there is a call to make, a call under way ends, and only a task waiting for itself is refused |
| `SharedConnections.TakenByAppend` | packages/kalinka-plugin-localfiles/src/kalinka_plugin_localfiles/db_connection.py:32-44 | a call taken comes last among its own task's calls and changes no other task's |
| `MusicSources.Following` | packages/kalinka-plugin-localfiles/src/kalinka_plugin_localfiles/config_model.py:412-438 | the two loops compute the matching and placing whose meaning the lemmas give |
| `MusicSources.LocalFilesConfig.Reconcile` | packages/kalinka-plugin-localfiles/src/kalinka_plugin_localfiles/config_model.py:579-588 | written folders are followed, others not; either way the folders are then the local sources' |
| `MusicSources.PathsFollow` | packages/kalinka-plugin-localfiles/src/kalinka_plugin_localfiles/config_model.py:412-438 | the local sources' paths are exactly the list written, in order, and the shares stay in order |
| `MusicSources.RecordsAreKept` | packages/kalinka-plugin-localfiles/src/kalinka_plugin_localfiles/config_model.py:415-429 | for each path as many old records are kept as both lists have, none twice; the rest are new |
| `MusicSources.SharesKeepTheirPlaces` | packages/kalinka-plugin-localfiles/src/kalinka_plugin_localfiles/config_model.py:430-438 | a share moves up by exactly as many places as local sources before it have gone: not at all while the list has not shrunk |
| `MusicSources.MatchingChangesNothing` | packages/kalinka-plugin-localfiles/src/kalinka_plugin_localfiles/config_model.py:412-438 | folders that already match change nothing, ids included |
| `MusicSources.FollowingTwice` | packages/kalinka-plugin-localfiles/src/kalinka_plugin_localfiles/config_model.py:412-438 | following the same list again changes nothing |
| `FolderIds.FolderIdRoundTrip` | packages/kalinka-plugin-localfiles/src/kalinka_plugin_localfiles/folder_ids.py:18-31 | any non-empty NUL-free location decodes from its id, which uses only the URL-safe alphabet |
| `FolderIds.OnlyCanonicalIdsReturn` | packages/kalinka-plugin-localfiles/src/kalinka_plugin_localfiles/folder_ids.py:22-31 | an id that names a location is that location's own id exactly when it sets no bit past the last whole byte |
| `FolderIds.TwoIdsOneLocation` | packages/kalinka-plugin-localfiles/src/kalinka_plugin_localfiles/folder_ids.py:22-31 | two different ids that name the same location |
| `FolderIds.Utf8RoundTrip` | packages/kalinka-plugin-localfiles/src/kalinka_plugin_localfiles/folder_ids.py:19 | text decodes from its UTF-8 |
| `FolderIds.Utf8Exact` | packages/kalinka-plugin-localfiles/src/kalinka_plugin_localfiles/folder_ids.py:28 | bytes that decode are the encoding of what they decode to |
| `FolderIds.EncodedAs` | packages/kalinka-plugin-localfiles/src/kalinka_plugin_localfiles/folder_ids.py:19 | a character's bytes are its number in groups of six bits after a first byte that tells how many follow |
| `FolderIds.SymbolTable` | packages/kalinka-plugin-localfiles/src/kalinka_plugin_localfiles/folder_ids.py:19 | the symbols are those of the URL-safe alphabet in its order |
| `FolderIds.SextetsAreDigits` | packages/kalinka-plugin-localfiles/src/kalinka_plugin_localfiles/folder_ids.py:19 | three bytes are one number of 24 bits, the groups of six its digits, with zeros for what is missing |
| `FolderIds.OctetsOfSextets` | packages/kalinka-plugin-localfiles/src/kalinka_plugin_localfiles/folder_ids.py:18-19 | bytes come back from their groups of six bits, one or two left over included |
| `FolderIds.SextetsOfOctets` | packages/kalinka-plugin-localfiles/src/kalinka_plugin_localfiles/folder_ids.py:26-28 | groups of six bits come back from their bytes exactly when no bit is left over |
| `FolderIds.StrippedIs` | packages/kalinka-plugin-localfiles/src/kalinka_plugin_localfiles/folder_ids.py:19 | taking the padding off gives back what it was put on |
| `EntityIds.EntityIdRoundTrip` | packages/kalinka-plugin-sdk/src/kalinka_plugin_sdk/datamodel.py:103-132 | an entity id reads back from its text exactly when neither source nor id holds a colon |
| `EntityIds.ReadIsWritten` | packages/kalinka-plugin-sdk/src/kalinka_plugin_sdk/datamodel.py:113-132 | text that is read is the text of what is read |
| `EntityIds.TextIs` | packages/kalinka-plugin-sdk/src/kalinka_plugin_sdk/datamodel.py:103-111 | an id's text names the scheme, the source, the kind and the id, in that order |
| `EntityIds.FolderSurvivesText` | packages/kalinka-plugin-localfiles/src/kalinka_plugin_localfiles/localfiles.py:294-295 | a folder's location survives its id, the `folder.` prefix and the entity id's text |

## Left out

- SQLite, `LIKE`, `fold` and the genre test themselves: a query is a function over rows, and a
  folded token may still hold `_`, so no claim is made about substrings.
- FolderWalk.TrackIdsUnder: needs canonical paths, distinct and without an empty segment, and a
  limit that is not negative; with an empty segment the code's recursion would not end. The
  source's one function is two methods here, and its queries are functions that sort.
- FolderSummaries.GroupSummary: needs canonical paths for the same reason.
- Popular.InterleavedItems: needs at least one section, as the code divides by their number; the
  single-section branch, whose `more` asks whether the page is full, is not modelled. The one
  function is split in three. Windows are not negative.
- Metrics.NoRankingBeatsIdeal: exact reals instead of floating point, any discount instead of
  the logarithm.
- Scoring: the loop of `graded` over the answers, soft recall, and the means.
- Playlists.Library.AddTracks: any statement raising stands for every cause of failure, so ids of
  new rows are not shown to be unique; rows of tracks deleted later keep their place. A
  playlist's name, description, image and times.
- VolumeProtocol.VolumeConverges: a successful probe is one step that reads and reports; a
  reconnection happens only while not ready; echoes arrive in order. A stale answer overtaken by
  an echo, and a second `get_ready` while already ready, are not modelled. Losses are, and
  excluded from this one statement.
- VolumeProtocol: power, input, playback and the timers' lengths.
- VolumeEvents.ClientsAreTold: the throttle interval, which is zero, and the maximum level.
- BluetoothTrust.TrustIsRecoverable: `Trusted` is written by Kalinka only, operations on one
  device run one at a time, reading a snapshot and the write it leads to are one step, and a
  restart begins with a fresh snapshot. An operation that ends half-way does so by the failure of
  its next effect. Records read from the first file format, which have no baseline, are not
  modelled.
- BluetoothTrust: the receiver's loops over its records, retry delays, peer ids and sessions; a
  step may come in any order instead. The alias in a record, and disconnecting audio beyond its
  outcome.
- AccessLog.AudioAccess.Cleanup: the backend's calls are given by how they end.
- Pairing.PairingWindow.CleanedUp: revoking and cleaning up each candidate is `AccessLog`'s and
  `BluetoothTrust`'s; here it is one step that ends, completed or not.
- Pairing: the agent's messages, device identities, the timer, and adapter properties that
  BlueZ changes by itself; the lease is whether it is free.
- SharedConnections: loadable extensions, which stay loaded on a lent connection, one connection
  per path, nested blocks, and waiting for locks.
- MusicSources.Following: new ids come from a parameter; the parts of a share other than its host
  and path.
- FolderIds.FolderIdRoundTrip: text of lone surrogates, which the code fails to encode.
- EntityIds: the validators that let a field be given a whole id.
- HTTP, D-Bus, UDP and file descriptors beyond their effects; discovery; playback; browse items;
  the benchmark's reporting; the C++ renderer.
