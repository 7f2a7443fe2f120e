# Build-your-trip travel planner, modelled in Dafny

This project models the logic of a travel-planning web application and of
two of its server functions. The traveller saves places, files them in
bookmark folders and pages through them. The app sequences selected stops
into a route with a greedy nearest-neighbour rule and reveals landmark
clusters by dragging a category icon onto the map. The traveller can search
for a trip, read an AI-generated itinerary with a budget estimate and its
local currency, and chat with an assistant whose streamed reply is read line
by line and scanned for known landmarks. The two server functions build the
planning prompt and extract the JSON answer from the language model's text.

One Dafny module per source file, plus shared helpers:

- `Wrappers` holds `Option`.
- `Seqs` holds filter and dedupe with their lemmas.
- `Text` holds trim, lower-casing, `indexOf`/`includes`, `split`/`join` and decimal rendering.
- `TripContext` holds the shared trip store and its records.

Where the source keeps state and changes it step by step, the model uses a
class whose methods state the whole new state:

- the trip store;
- the map planner state;
- the Saved page;
- the favourites panel;
- the search bar;
- the explore page;
- the search box;
- the trip builder;
- the chat session.

The route sequencer, the stream reader and the overview map's location
collection are methods with loops, each proved equal to a specification
function. The properties are proved about those functions.

External inputs are parameters of the operations that use them:

- the great-circle distance;
- the map's distance from a drop point;
- the JSON parser;
- the geocoder's answer;
- the replies of the search, suggestion and chat services;
- the chunks of a streamed response;
- the timestamp used as a bookmark id.

Dates are whole day numbers.

## Model

| member | source | states |
|---|---|---|
| TripContext.FindIndex | src/contexts/TripContext.tsx:177 | the index found holds the id and no earlier entry does; none exactly when no saved place has the id |
| TripContext.FindSaved | src/components/TripSearchBar.tsx:81 | `find` by id: the result is the first saved place with that id; none exactly when no place has it |
| TripContext.Merge | src/contexts/TripContext.tsx:179 | the incoming id, name, tags, kind, image and description win; each of latitude, longitude, city, country and nearby takes the incoming value when present and keeps the earlier one when absent |
| TripContext.Upsert | src/contexts/TripContext.tsx:175-186 | afterwards the id is saved; a known id keeps the length, the first entry with it becomes the merged record (every field as `Merge` states) and all others are unchanged; a new id is appended |
| TripContext.UpsertIdempotent | src/contexts/TripContext.tsx:175-186 | adding the same record twice stores what adding it once stores |
| TripContext.UpsertKeepsDistinct | src/contexts/TripContext.tsx:175-186 | adding keeps saved ids distinct |
| TripContext.WithoutLocation | src/contexts/TripContext.tsx:188-190 | no entry with the id remains; exactly the other entries remain |
| TripContext.RemoveUndoesAdd | src/contexts/TripContext.tsx:175-190 | removing a place just added under a new id restores the list |
| TripContext.RemoveKeepsOrder | src/contexts/TripContext.tsx:188-190 | removal distributes over concatenation, so the kept entries stay in order |
| TripContext.RemoveKeepsDistinct | src/contexts/TripContext.tsx:188-190 | removal keeps saved ids distinct |
| TripContext.WithoutBookmark | src/contexts/TripContext.tsx:226-228 | exactly the bookmarks with another id remain |
| TripContext.RemoveBookmarkUndoesAdd | src/contexts/TripContext.tsx:217-228 | deleting a folder just created under a new id restores the folders |
| TripContext.Renamed | src/contexts/TripContext.tsx:230-232 | same length; only the name of folders with the id changes, ids and contents never |
| TripContext.RenameTwice | src/contexts/TripContext.tsx:230-232 | a second rename overrides the first |
| TripContext.WithLocationId | src/contexts/TripContext.tsx:234-238 | the id is appended to the matching folders only, without de-duplication; names and ids are unchanged |
| TripContext.WithoutLocationId | src/contexts/TripContext.tsx:240-244 | the matching folders lose every occurrence of the id and keep their other ids; other folders are unchanged |
| TripContext.RemoveIdUndoesAdd | src/contexts/TripContext.tsx:234-244 | filing an id a folder lacked and removing it again restores the folders |
| TripContext.TripStore.IsLocationSaved | src/contexts/TripContext.tsx:192-194 | true exactly when some saved entry carries the id |
| TripContext.TripStore.AddLocation | src/contexts/TripContext.tsx:175-186 | the saved list becomes the upsert; the place is then saved; distinct ids stay distinct; nothing else changes |
| TripContext.TripStore.RemoveLocation | src/contexts/TripContext.tsx:188-190 | the saved list loses the id and the place is no longer saved; bookmarks and the other fields are unchanged |
| TripContext.TripStore.ClearItinerary | src/contexts/TripContext.tsx:204-207 | the itinerary becomes empty and the AI itinerary null; the rest is unchanged |
| TripContext.TripStore.AddBookmark | src/contexts/TripContext.tsx:217-224 | one empty folder with the name is appended; the rest is unchanged |
| TripContext.TripStore.RemoveBookmark | src/contexts/TripContext.tsx:226-228 | the folders lose exactly those with the id |
| TripContext.TripStore.RenameBookmark | src/contexts/TripContext.tsx:230-232 | the folders are renamed as `Renamed` says; saved places are unchanged |
| TripContext.TripStore.AddLocationToBookmark | src/contexts/TripContext.tsx:234-238 | the folders become `WithLocationId`; the rest is unchanged |
| TripContext.TripStore.RemoveLocationFromBookmark | src/contexts/TripContext.tsx:240-244 | the folders become `WithoutLocationId`; the rest is unchanged |
| TripContext.TripStore.ClearAllSavedLocations | src/contexts/TripContext.tsx:246-249 | saved places and folders become empty; itinerary, AI itinerary and search are unchanged |
| TripContext.SlotLocations | src/components/OSRMItineraryMap.tsx:30-35 | a day names at most three places |
| RouteSequencer.Round | src/components/EnhancedTripMap.tsx:445 | the result is within half a unit of the input, a half rounding up |
| RouteSequencer.CalculateDuration | src/components/EnhancedTripMap.tsx:443-446 | a leg of non-negative length takes a non-negative number of minutes |
| RouteSequencer.WalkingTakesAtLeastAsLong | src/components/EnhancedTripMap.tsx:443-446 | on foot a leg never takes fewer minutes than by car |
| RouteSequencer.FirstMinIndex | src/components/EnhancedTripMap.tsx:401-410 | the chosen stop is at minimum distance and strictly closer than every earlier stop, so the first minimum wins ties |
| RouteSequencer.IndexOfStop | src/components/EnhancedTripMap.tsx:420 | `indexOf`: -1 exactly when absent, else the first position holding the stop |
| RouteSequencer.IndexOfFirstMin | src/components/EnhancedTripMap.tsx:401-420 | `indexOf` finds the chosen stop at the position the scan chose it from |
| RouteSequencer.RemoveMultiset | src/components/EnhancedTripMap.tsx:420 | `splice` removes exactly one occurrence of the chosen stop |
| RouteSequencer.VisitOrderPermutation | src/components/EnhancedTripMap.tsx:395-423 | the stops visited are a permutation of the stops after the start |
| RouteSequencer.RouteFromShape | src/components/EnhancedTripMap.tsx:400-423 | one leg per visited stop; leg i is numbered from the first order, goes to the i-th visited stop from the previous one, and carries that distance and its duration |
| RouteSequencer.RouteFromLength | src/components/EnhancedTripMap.tsx:400-423 | the greedy walk makes one leg per stop still to visit |
| RouteSequencer.OptimizedRoute | src/components/EnhancedTripMap.tsx:391-427 | two or more selected stops give one leg fewer than stops |
| RouteSequencer.GreedyChoice | src/components/EnhancedTripMap.tsx:401-410 | each visited stop is a nearest one among the stops not yet visited |
| RouteSequencer.OptimizedRouteContract | src/components/EnhancedTripMap.tsx:391-427 | below two stops the route is empty; otherwise n-1 legs numbered 1.., starting at the first stop, each leg leaving where the previous arrived, the visited stops a permutation of the rest |
| RouteSequencer.OptimizedRouteIsGreedy | src/components/BuildYourTripMap.tsx:378-401 | each leg is no longer than a leg from the same place to any stop visited later |
| RouteSequencer.WorkedExample | src/components/EnhancedTripMap.tsx:391-427 | from A(0,0) with B(0,1), C(0,10), D(0,2) the legs go to B, then D, then C |
| RouteSequencer.RouteDurationsNonNegative | src/components/EnhancedTripMap.tsx:412-419 | with non-negative distances every leg's duration is non-negative |
| RouteSequencer.FindNearest | src/components/BuildYourTripMap.tsx:379-388 | the inner scan returns the first stop at minimum distance and that distance |
| RouteSequencer.OptimizeRoute | src/components/EnhancedTripMap.tsx:391-427 | the loop's route is the specified greedy route |
| RouteSequencer.NextLeg | src/components/EnhancedTripMap.tsx:401-422 | one pass emits the specified leg to the nearest stop and leaves one stop fewer, the rest of the specified route continuing from there |
| RouteSequencer.VisitMinutes | src/components/EnhancedTripMap.tsx:777 | a missing or zero visit length counts 60 minutes, a non-zero one counts itself |
| RouteSequencer.TravelTime | src/components/EnhancedTripMap.tsx:776 | legs of non-negative duration sum to a non-negative travel time |
| RouteSequencer.VisitTime | src/components/EnhancedTripMap.tsx:777 | stops without a visit length (or with zero) contribute an hour each |
| RouteSequencer.TotalDuration | src/components/EnhancedTripMap.tsx:775-779 | with legs of non-negative duration the total is at least the time spent visiting |
| RouteSequencer.TravelTimeAppend | src/components/EnhancedTripMap.tsx:776 | travel time adds up over consecutive parts of a route |
| RouteSequencer.VisitTimeAppend | src/components/EnhancedTripMap.tsx:777 | visit time adds up over consecutive groups of stops |
| RouteSequencer.TotalAtLeastVisits | src/components/EnhancedTripMap.tsx:775-779 | the total duration is at least the visit time of the selected stops |
| RouteSequencer.FormatDuration | src/components/EnhancedTripMap.tsx:768-773 | plain minutes exactly below 60; otherwise hours at least 1 and minutes below 60; the label always reads back as the input |
| TripMap.ClusterStop | src/components/BuildYourTripMap.tsx:296-317 | the stop carries the cluster's id, name, coordinates, type and visit length |
| TripMap.ToggleStop | src/components/BuildYourTripMap.tsx:319-324 | a selected id is removed, every entry with it, leaving exactly the others in their order (the `filter` of the selection); an unselected one is appended |
| TripMap.ToggleKeepsOrder | src/components/BuildYourTripMap.tsx:319-324 | deselecting distributes over concatenation, so the kept stops stay in selection order |
| TripMap.ToggleKeepsStart | src/components/BuildYourTripMap.tsx:319-324 | deselecting a stop other than the first keeps the first stop, which the route starts from |
| TripMap.ToggleTwice | src/components/BuildYourTripMap.tsx:319-324 | clicking an unselected cluster twice restores the selection |
| TripMap.NearbyClusters | src/components/BuildYourTripMap.tsx:346-349 | exactly the clusters closer than 8000 m whose type is the dragged icon's |
| TripMap.Revealed | src/components/BuildYourTripMap.tsx:351-354 | nothing nearby leaves the list; otherwise the union of old and new ids without repeats, and nothing else |
| TripMap.RevealedKeepsOrder | src/components/BuildYourTripMap.tsx:351-354 | the previously visible ids stay first, in their order |
| TripMap.ValidLocations | src/components/EnhancedTripMap.tsx:233 | exactly the saved places with both coordinates present and non-zero |
| TripMap.TripMapState.RefreshRoute | src/components/EnhancedTripMap.tsx:273-288 | the stored route becomes the greedy route of the selection (empty below two stops); nothing else changes |
| TripMap.TripMapState.ClusterClick | src/components/EnhancedTripMap.tsx:359-387 | the selection is toggled and the route recomputed for it |
| TripMap.TripMapState.SetTravelMode | src/components/EnhancedTripMap.tsx:795-805 | the mode changes and the route is recomputed under it |
| TripMap.TripMapState.TotalMinutes | src/components/BuildYourTripMap.tsx:580-584 | travel minutes of the stored route plus visit minutes of the selection |
| TripMap.TripMapState.DragStart | src/components/BuildYourTripMap.tsx:327-330 | the dragged icon is recorded; nothing else changes |
| TripMap.TripMapState.Drop | src/components/BuildYourTripMap.tsx:337-367 | without a dragged icon or map nothing changes; otherwise the nearby clusters are revealed and the drag ends |
| TripMap.TripMapState.SearchChange | src/components/BuildYourTripMap.tsx:604-607 | the query is set; the discovery prompt shows exactly when it is blank |
| TripMap.TripMapState.TagClick | src/components/BuildYourTripMap.tsx:609-612 | the tag becomes the query and the prompt hides |
| SavedPage.TotalPages | src/pages/Saved.tsx:17 | the ceiling of n/12: enough pages for all items, no empty last page, zero exactly for no items |
| SavedPage.Slice | src/pages/Saved.tsx:20 | `slice` never yields more than the list nor more than the range asked |
| SavedPage.PageItems | src/pages/Saved.tsx:18-20 | page p shows positions (p-1)·12 up to p·12 clamped to the list, at most 12 items, none past the end |
| SavedPage.FirstPagesPrefix | src/pages/Saved.tsx:18-20 | the first k pages are the first 12k items |
| SavedPage.PagesCoverList | src/pages/Saved.tsx:17-20 | the pages, one after another, are the whole list |
| SavedPage.PageBefore | src/pages/Saved.tsx:32-36 | one page back only from a page after the first |
| SavedPage.PageAfter | src/pages/Saved.tsx:38-42 | one page on only before the last page |
| SavedPage.PageAfterRemoval | src/pages/Saved.tsx:22-30 | one page back exactly when the page showed a single item and is not the first |
| SavedPage.NavigationStaysInRange | src/pages/Saved.tsx:32-42 | previous and next keep the page among those that exist |
| SavedPage.RemovalStaysInRange | src/pages/Saved.tsx:22-30 | after removing an item shown on the page, the page still exists |
| SavedPage.GenerateItinerary | src/pages/Saved.tsx:44-48 | an error exactly when nothing is saved |
| SavedPage.SavedView.PrevPage | src/pages/Saved.tsx:32-36 | the page becomes `PageBefore` of the old page |
| SavedPage.SavedView.NextPage | src/pages/Saved.tsx:38-42 | the page becomes `PageAfter` of the old page |
| SavedPage.SavedView.RemoveLocation | src/pages/Saved.tsx:22-30 | the store loses the place, folders are unchanged, and the page follows `PageAfterRemoval` of what it showed before |
| FavoritesPanel.ToggleExpanded | src/components/FavoritesPanel.tsx:54-62 | the folder's membership flips and no other folder's changes |
| FavoritesPanel.ToggleExpandedTwice | src/components/FavoritesPanel.tsx:54-62 | toggling twice restores the expanded set |
| FavoritesPanel.Unbookmarked | src/components/FavoritesPanel.tsx:111-113 | exactly the saved places no folder lists |
| FavoritesPanel.UnbookmarkedPartition | src/components/FavoritesPanel.tsx:111-113 | unfiled and filed places together are the saved places, as a multiset |
| FavoritesPanel.FolderContents | src/components/FavoritesPanel.tsx:257-259 | at most one place per listed id, each a saved place whose id the folder lists |
| FavoritesPanel.FolderContentsAppend | src/components/FavoritesPanel.tsx:257-259 | listing one more id appends exactly the saved place with it, or nothing, so places appear in the folder's order |
| FavoritesPanel.FolderContentsComplete | src/components/FavoritesPanel.tsx:257-259 | when every listed id is saved, one place per id is shown, and the k-th place shown is the saved place with the k-th id |
| FavoritesPanel.FindBookmark | src/components/FavoritesPanel.tsx:96 | a found folder is the first in the list with the id; none only when no folder has it |
| FavoritesPanel.DropFilesLocation | src/components/FavoritesPanel.tsx:94-103 | after a drop that files the place, it is no longer among the unfiled |
| FavoritesPanel.PanelState.ToggleBookmark | src/components/FavoritesPanel.tsx:54-62 | the expanded set is toggled; nothing else changes |
| FavoritesPanel.PanelState.AddBookmark | src/components/FavoritesPanel.tsx:64-70 | a blank name changes nothing; otherwise a folder with the trimmed name is appended and the input cleared |
| FavoritesPanel.PanelState.RenameBookmark | src/components/FavoritesPanel.tsx:72-79 | a blank name changes nothing; otherwise the folder takes the trimmed name and editing ends |
| FavoritesPanel.PanelState.DragStart | src/components/FavoritesPanel.tsx:86-88 | the dragged place is recorded |
| FavoritesPanel.PanelState.DropOnBookmark | src/components/FavoritesPanel.tsx:94-103 | the id is filed only if the folder exists and lacks it; any drop with a dragged place ends the drag |
| TravelChatbox.ShowAssistant | src/components/TravelChatbox.tsx:122-131 | the last message is the assistant's with the whole reply so far; a trailing assistant message is replaced, otherwise one is appended |
| TravelChatbox.ShowAssistantTwice | src/components/TravelChatbox.tsx:122-131 | a later update overrides an earlier one: one assistant message per reply |
| TravelChatbox.ReplyGrows | src/components/TravelChatbox.tsx:120-131 | a longer reply replaces what was shown of it |
| TravelChatbox.Reply | src/components/TravelChatbox.tsx:120-131 | an empty reply leaves the history; a non-empty one is the last message, from the assistant |
| TravelChatbox.StripCR | src/components/TravelChatbox.tsx:108 | exactly one trailing carriage return is removed, if there is one |
| TravelChatbox.TrailingCRIgnored | src/components/TravelChatbox.tsx:108-113 | a trailing carriage return never changes how a line is read |
| TravelChatbox.DataLineShape | src/components/TravelChatbox.tsx:108-117 | only a `data: ` line that is not a comment or blank carries a payload, its trimmed text, and `[DONE]` is never parsed |
| TravelChatbox.Drain | src/components/TravelChatbox.tsx:104-137 | draining only extends the reply |
| TravelChatbox.DrainOutcome | src/components/TravelChatbox.tsx:104-137 | after draining, the stream ended, no complete line is left, or a bad line is stuck in front |
| TravelChatbox.DrainSkips | src/components/TravelChatbox.tsx:109-110 | comment, blank and non-data lines are dropped without effect |
| TravelChatbox.DrainEnds | src/components/TravelChatbox.tsx:113-116 | `[DONE]` ends the stream with the reply unchanged |
| TravelChatbox.DrainReads | src/components/TravelChatbox.tsx:118-131 | a parsed delta's content is appended to the reply and reading goes on |
| TravelChatbox.DrainFails | src/components/TravelChatbox.tsx:133-136 | a payload that fails to parse is put back in front of the buffer and nothing is read |
| TravelChatbox.PushBackStalls | src/components/TravelChatbox.tsx:133-136 | the line put back is again the first line and fails again |
| TravelChatbox.StallIsPermanent | src/components/TravelChatbox.tsx:98-137 | once a complete line fails to parse, no later chunk adds to the reply and `[DONE]` is never seen |
| TravelChatbox.DrainAppend | src/components/TravelChatbox.tsx:98-137 | text arriving after a drain resumes from the leftover partial line, unless the stream ended or stalled |
| TravelChatbox.ChunkingIrrelevant | src/components/TravelChatbox.tsx:98-137 | the reply does not depend on how the body is cut into chunks |
| TravelChatbox.DoneIgnoresRest | src/components/TravelChatbox.tsx:113-116 | after `[DONE]` later chunks are not read |
| TravelChatbox.Stream | src/components/TravelChatbox.tsx:98-102 | a finished stream takes no more chunks; reading chunks only extends the reply |
| TravelChatbox.DrainSkipping | src/components/TravelChatbox.tsx:104-137 | the corrected reader (a bad line is skipped) only extends the reply |
| TravelChatbox.DrainSkippingConsumesLines | src/components/TravelChatbox.tsx:104-137 | the corrected reader stops only at `[DONE]` or when no complete line is left |
| TravelChatbox.BadLineHidesLaterText | src/components/TravelChatbox.tsx:133-136 | a bad data line followed by a good one: as written nothing is shown, corrected the good line's text is shown |
| TravelChatbox.BadLineStops | src/components/TravelChatbox.tsx:133-136 | as written, a bad first line stops the reader with nothing added |
| TravelChatbox.BadLineSkipped | src/components/TravelChatbox.tsx:133-136 | corrected, a bad first line is read as if absent |
| TravelChatbox.IconFor | src/components/TravelChatbox.tsx:212-232 | unknown types get the attraction icon; a known type gets it only if it is `attraction` |
| TravelChatbox.ExtractFrom | src/components/TravelChatbox.tsx:224-254 | one place per mentioned landmark, every mentioned landmark included, nothing else |
| TravelChatbox.ExtractAppend | src/components/TravelChatbox.tsx:224-254 | extraction follows the landmark order |
| TravelChatbox.FirstById | src/components/TravelChatbox.tsx:257-259 | the result has distinct ids, is drawn from the input and loses no id |
| TravelChatbox.FirstByIdKeepsDistinct | src/components/TravelChatbox.tsx:257-259 | a list with distinct ids passes unchanged |
| TravelChatbox.GazetteerIdsDistinct | src/components/TravelChatbox.tsx:196-209 | the known landmarks have distinct ids |
| TravelChatbox.ExtractionContents | src/components/TravelChatbox.tsx:222-259 | a landmark is extracted exactly when one of its phrases occurs in the lower-cased plan, in landmark order, ids distinct |
| TravelChatbox.ExtractedIffMentioned | src/components/TravelChatbox.tsx:224-229 | over landmarks with distinct ids, a landmark's place is extracted exactly when one of its phrases is mentioned |
| TravelChatbox.ExtractLocations | src/components/TravelChatbox.tsx:221-259 | the method computes the specified extraction |
| TravelChatbox.Delivery | src/components/TravelChatbox.tsx:141-143 | the places reach the planner exactly when a listener exists and some were found, and they are the extracted ones |
| TravelChatbox.PushMentioned | src/components/TravelChatbox.tsx:225-254 | the `forEach` pushes exactly the mentioned landmarks' places, in landmark order |
| TravelChatbox.FindMention | src/components/TravelChatbox.tsx:226-229 | a landmark is found exactly when one of its phrases, lower-cased, occurs in the lower-cased plan |
| TravelChatbox.Segments | src/components/TravelChatbox.tsx:274-279 | one piece per part, bold exactly at odd positions |
| TravelChatbox.RenderLine | src/components/TravelChatbox.tsx:271-290 | a line is rendered with emphasis exactly when it contains `**`; a heading or paragraph shows the line unchanged |
| TravelChatbox.RenderMessage | src/components/TravelChatbox.tsx:271-290 | one block per line of the reply, each rendered by the line rule |
| TravelChatbox.EmphasisRejoins | src/components/TravelChatbox.tsx:273-281 | an emphasised line's pieces rejoined with `**` give the line back, and no piece holds `**` |
| TravelChatbox.BreakIffBlank | src/components/TravelChatbox.tsx:289 | a line is a line break exactly when it is blank |
| TravelChatbox.ListItemShape | src/components/TravelChatbox.tsx:283-285 | a list item's trimmed text starts with a dash and the item is the text after the first dash |
| TravelChatbox.ListItemText | src/components/TravelChatbox.tsx:283-285 | the first dash is the one that opens the trimmed line, so the item is the trimmed text after it |
| TravelChatbox.OutgoingMessage | src/components/TravelChatbox.tsx:148-154 | nothing is sent exactly when the input is blank and no image is attached; an empty input with an image sends the image prompt |
| TravelChatbox.ReplyKeepsHistory | src/components/TravelChatbox.tsx:156-158 | streaming a reply keeps the user's message and everything before it |
| TravelChatbox.ChatSession.StreamChat | src/components/TravelChatbox.tsx:49-145 | a failed response changes nothing; otherwise the messages show the streamed reply; landmarks are delivered only for a non-empty day plan |
| TravelChatbox.ChatSession.ReadLines | src/components/TravelChatbox.tsx:104-137 | the inner loop's end state is the specified drain, and the messages show the reply so far |
| TravelChatbox.ChatSession.TakeLine | src/components/TravelChatbox.tsx:105-136 | one pass either stops the loop at the drain's result or shortens the buffer |
| TravelChatbox.ChatSession.TakeDataLine | src/components/TravelChatbox.tsx:118-136 | a parsed payload extends and shows the reply and consumes the line; an unparsable one puts the line back and stops, as the reader as written does |
| TravelChatbox.ChatSession.ShowDelta | src/components/TravelChatbox.tsx:119-131 | a parsed delta is appended to the reply, and the messages are those of the longer reply (unchanged for an empty or missing delta) |
| TravelChatbox.ChatSession.Send | src/components/TravelChatbox.tsx:147-169 | a blank send changes nothing; otherwise the user's message is posted, input and image cleared, and the reply streamed |
| TravelChatbox.ChatSession.PlanMyDay | src/components/TravelChatbox.tsx:171-190 | the day-plan prompt is posted and the landmarks of a non-empty reply are delivered |
| ItineraryView.CurrencyFor | src/pages/ItineraryView.tsx:33-45 | a table currency, or USD/$ for an unknown country |
| ItineraryView.FirstLocation | src/pages/ItineraryView.tsx:32 | a location is the first day's morning place; no days give none |
| ItineraryView.CurrencyCodes | src/pages/ItineraryView.tsx:33-45 | dirham exactly for the UAE; dollar exactly for the USA and unknown countries; euro exactly for Greece, Italy and France |
| ItineraryView.DetectCurrency | src/pages/ItineraryView.tsx:31-48 | the first morning place's non-empty country decides; otherwise the current currency stays |
| ItineraryView.Weight | src/pages/ItineraryView.tsx:51-53 | ten times the guest multiplier is the whole number 10a + 7c + 3i, or 20 without search parameters |
| ItineraryView.Multiplier | src/pages/ItineraryView.tsx:51-53 | no party counts as 2; otherwise adults 1, children 0.7 and infants 0.3 each |
| ItineraryView.BudgetFor | src/pages/ItineraryView.tsx:55-68 | the total is the sum of the four parts, and transport is 20 per day |
| ItineraryView.BudgetInWholeNumbers | src/pages/ItineraryView.tsx:55-68 | every rounding is exact: 15k a night, 20 a day transport, 5k and 4k a day food and activities, total the sum, (24k+20)·days |
| ItineraryView.DefaultPartyIsTwoAdults | src/pages/ItineraryView.tsx:51-53 | without search parameters the budget is that of two adults |
| ItineraryView.BudgetMonotone | src/pages/ItineraryView.tsx:51-68 | a larger party never costs less |
| ItineraryView.Refresh | src/pages/ItineraryView.tsx:28-69 | without an AI itinerary nothing changes; otherwise currency and budget are recomputed over its days |
| ItineraryView.RefreshIdempotent | src/pages/ItineraryView.tsx:28-69 | rerunning the effect on the same inputs changes nothing |
| ItineraryView.ScreenFor | src/pages/ItineraryView.tsx:71-103 | "no saved places" exactly when none are saved; "no itinerary" exactly when some are and none was generated |
| TripSearchBar.Validate | src/components/TripSearchBar.tsx:35-48 | the first broken rule in the order destination, dates, adult; none exactly when all hold |
| TripSearchBar.TripDays | src/components/TripSearchBar.tsx:32 | 0 until both dates are set; at least 1 for ordered dates |
| TripSearchBar.TripDaysShift | src/components/TripSearchBar.tsx:32 | both ends count: the same day is one day, one more end day is one more day |
| TripSearchBar.ResolveSlot | src/components/TripSearchBar.tsx:81 | the slot keeps its time, activities and duration; its place is a suggested place with its id, absent exactly when none has it |
| TripSearchBar.ResolveDays | src/components/TripSearchBar.tsx:77-97 | same days in the same order, each resolved |
| TripSearchBar.Resolve | src/components/TripSearchBar.tsx:77-97 | one resolved day per suggested day with its day number; tips and budgets carried over |
| TripSearchBar.ResolvedIsFirstMatch | src/components/TripSearchBar.tsx:79-92 | a slot's place is the first suggested place with its id |
| TripSearchBar.SearchBar.constructor | src/components/TripSearchBar.tsx:20-29 | an empty form for two adults, no other guests |
| TripSearchBar.SearchBar.TotalGuests | src/components/TripSearchBar.tsx:31 | the sum of the four counters, never negative |
| TripSearchBar.SearchBar.SearchDisabled | src/components/TripSearchBar.tsx:333 | the search button is enabled only with a destination, both dates and no search running |
| TripSearchBar.SearchBar.EnabledPassesFirstChecks | src/components/TripSearchBar.tsx:333 | with the button enabled, a search can only be refused for want of an adult |
| TripSearchBar.SearchBar.Decrement | src/components/TripSearchBar.tsx:226 | the counter drops by one but not below zero; other counters and the form are unchanged |
| TripSearchBar.SearchBar.Increment | src/components/TripSearchBar.tsx:236 | the counter rises by one; the rest is unchanged |
| TripSearchBar.SearchBar.Search | src/components/TripSearchBar.tsx:34-113 | a refused form changes nothing; otherwise the parameters are stored, the search ends, and the outcome follows the reply |
| ItineraryFlatMap.AllLocationsFromDays | src/components/ItineraryFlatMap.tsx:33-42 | every map place has coordinates and is named by one of the days; at most three per day |
| ItineraryFlatMap.AllLocations | src/components/ItineraryFlatMap.tsx:33-42 | exactly the pushed slot places that have coordinates, never more than were pushed |
| ItineraryFlatMap.CollectLocations | src/components/ItineraryFlatMap.tsx:33-42 | the `forEach` with its pushes and the coordinate filter computes the specified places |
| ItineraryFlatMap.PushSlots | src/components/ItineraryFlatMap.tsx:35-39 | one day pushes exactly its slot places, morning, afternoon, evening, after what was pushed before |
| ItineraryFlatMap.PinsFollowLocations | src/components/ItineraryFlatMap.tsx:35-41 | the day-tagged places are the map's places in the map's order |
| ItineraryFlatMap.PinsFromTheirDay | src/components/ItineraryFlatMap.tsx:35-39 | each place is tagged with a day that names it |
| ItineraryFlatMap.PinsInDayOrder | src/components/ItineraryFlatMap.tsx:35-39 | markers never go back a day |
| ItineraryFlatMap.MarkersAsWritten | src/components/ItineraryFlatMap.tsx:121-124 | as written, marker i's day is i/3 + 1 |
| ItineraryFlatMap.AsWrittenMisnumbersDays | src/components/ItineraryFlatMap.tsx:121-123 | two days holding one morning place each: the second marker is labelled day 1, though its place is day 2's |
| ItineraryFlatMap.Markers | src/components/ItineraryFlatMap.tsx:121-124 | marker i shows the i-th place, order i+1, highlighted exactly when its id is the highlighted one, and the day that names it |
| ItineraryFlatMap.FullPins | src/components/ItineraryFlatMap.tsx:35-39 | when every day has three places with coordinates, place i belongs to day i/3 + 1 |
| ItineraryFlatMap.AsWrittenRightForFullDays | src/components/ItineraryFlatMap.tsx:121-124 | for full days the index-derived numbering agrees with the corrected one |
| ItineraryFlatMap.RouteLine | src/components/ItineraryFlatMap.tsx:195-197 | no line for at most one place; otherwise one point per place, with its coordinates |
| OSRMItineraryMap.Points | src/components/OSRMItineraryMap.tsx:36-41 | one point per place, in order, with `lat` as lat, `lng` as lon, and the name and image carried over |
| OSRMItineraryMap.DayPoints | src/components/OSRMItineraryMap.tsx:29-45 | at most three points, from the day's places in slot order with coordinates; lat from `lat`, lon from `lng` |
| OSRMItineraryMap.FullDayPoints | src/components/OSRMItineraryMap.tsx:29-45 | a day with three located places shows them morning, afternoon, evening |
| OSRMItineraryMap.Labels | src/components/OSRMItineraryMap.tsx:119 | marker i is labelled i + 1 |
| OSRMItineraryMap.LabelsCountUp | src/components/OSRMItineraryMap.tsx:119 | labels count from 1 without gaps up to the number of points |
| OSRMItineraryMap.RequestsRoute | src/components/OSRMItineraryMap.tsx:140-141 | the road route is fetched exactly when a marker numbered 2 or higher exists |
| OSRMItineraryMap.IndexOfName | src/components/OSRMItineraryMap.tsx:203 | `findIndex`: the first point with the name; none exactly when no point has it |
| OSRMItineraryMap.FindByName | src/components/OSRMItineraryMap.tsx:197 | a found point is in the list with the name; none exactly when no point has it |
| OSRMItineraryMap.FindAgreesWithIndex | src/components/OSRMItineraryMap.tsx:197-206 | `find` and `findIndex` pick the same point |
| OSRMItineraryMap.HighlightFor | src/components/OSRMItineraryMap.tsx:197-206 | an empty (falsy) name or an unknown one does nothing; otherwise the map centres on the named point and opens the marker at its index |
| Explore.ResultsOf | src/pages/Explore.tsx:77-88 | the reply's list, or the built-in list after an error or a reply without one |
| Explore.Displayed | src/pages/Explore.tsx:106-110 | with a category, exactly the results in it; without, the results if any, else the default list |
| Explore.DisplayedNeverEmptyWithoutCategory | src/pages/Explore.tsx:106-110 | without a category the page is never empty |
| Explore.ExplorePage.Shown | src/pages/Explore.tsx:106-110 | every card shown is a search result or a default destination; with a category selected, every card has it |
| Explore.ToSavedLocation | src/pages/Explore.tsx:136-145 | the record carries the destination's id, name, location as description, category as tag and type, `landmark` for none, and the coordinates |
| Explore.OrZero | src/pages/Explore.tsx:181-182 | a falsy coordinate becomes 0 |
| Explore.OpenedCoordinates | src/pages/Explore.tsx:155-182 | own coordinates when both are truthy, else the geocoder's, else what there was, missing ones 0 |
| Explore.OpenedDefaults | src/pages/Explore.tsx:155-182 | no coordinates and a failed lookup open at (0, 0) |
| Explore.SaveRecord | src/pages/Explore.tsx:112-145 | nothing is saved exactly when a coordinate is falsy and the lookup fails; a saved record has coordinates |
| Explore.ExplorePage.PerformSearch | src/pages/Explore.tsx:66-91 | a blank query changes nothing; any other replaces the results by the reply's and ends with the spinner off; the category is untouched |
| Explore.ExplorePage.Search | src/pages/Explore.tsx:68-89 | the results become the reply's list, or the built-in list on an error or an answer without one; the category is kept and the loading flag ends lowered |
| Explore.ExplorePage.TagClick | src/pages/Explore.tsx:99-104 | the selected tag clears the category without searching; another is selected and searched, ending with the spinner off |
| Explore.TagClickTwice | src/pages/Explore.tsx:99-104 | clicking a new tag twice leaves no category selected |
| SimpleSearchBar.SuggestionsFor | src/components/SimpleSearchBar.tsx:63-77 | none for an empty query; otherwise exactly the entries whose name, city or category contains it, ignoring case, in the fixed list's order (a subsequence of it) |
| SimpleSearchBar.Matches | src/components/SimpleSearchBar.tsx:66-71 | the empty query matches every entry |
| SimpleSearchBar.SuggestionsFromList | src/components/SimpleSearchBar.tsx:66-71 | suggestions come from the fixed list, at most all of it, none twice |
| SimpleSearchBar.CaseInsensitive | src/components/SimpleSearchBar.tsx:66-71 | a query and its lower-cased form suggest the same entries |
| SimpleSearchBar.SearchBox.SetQuery | src/components/SimpleSearchBar.tsx:63-77 | the dropdown shows exactly for a non-empty query, with its suggestions |
| SimpleSearchBar.SearchBox.QueryEffect | src/components/SimpleSearchBar.tsx:63-78 | the effect refilters for the current query and shows the dropdown exactly when the query is not empty |
| SimpleSearchBar.SearchBox.Select | src/components/SimpleSearchBar.tsx:80-84 | the pick is handed on, the query cleared and the dropdown closed |
| SimpleSearchBar.SearchBox.Focus | src/components/SimpleSearchBar.tsx:95 | focus reopens the dropdown only with a query |
| SimpleSearchBar.SearchBox.Blur | src/components/SimpleSearchBar.tsx:96 | leaving the box closes the dropdown |
| CreateTrip.ToggleId | src/pages/CreateTrip.tsx:76-90 | a picked id is dropped, every occurrence; an absent one is appended |
| CreateTrip.ToggleIdTwice | src/pages/CreateTrip.tsx:76-90 | picking an absent id twice restores the list |
| CreateTrip.ToggleIdKeepsNoDuplicates | src/pages/CreateTrip.tsx:76-90 | a click never repeats an id |
| CreateTrip.ClicksKeepNoDuplicates | src/pages/CreateTrip.tsx:70-90 | from an empty pick, no series of clicks picks an id twice |
| CreateTrip.TripBuilder.ToggleLocation | src/pages/CreateTrip.tsx:76-90 | the picked ids are toggled and stay free of repeats |
| CreateTrip.TripBuilder.SelectFilter | src/pages/CreateTrip.tsx:123 | the active filter becomes the lower-cased label |
| CreateTrip.AllBadgeIsInitialFilter | src/pages/CreateTrip.tsx:69-74 | the `All` badge selects the initial filter |
| Popular.FilteredItineraries | src/pages/Popular.tsx:88-90 | everything under `all`; otherwise exactly the itineraries of the vibe |
| Popular.FilteredIsSubset | src/pages/Popular.tsx:88-90 | the list shown is drawn from the full list |
| Popular.NoVibeOnlyUnderAll | src/pages/Popular.tsx:88-90 | an itinerary without a vibe shows exactly under `all` |
| Popular.FilterKeepsOrder | src/pages/Popular.tsx:88-90 | filtering keeps list order |
| TripPrompt.DestinationText | supabase/functions/generate-ai-itinerary/index.ts:23 | never empty; a given destination is used as it is |
| TripPrompt.Counted | supabase/functions/generate-ai-itinerary/index.ts:26 | the phrase starts with the count written in decimal, then a space |
| TripPrompt.Travelers | supabase/functions/generate-ai-itinerary/index.ts:25-27 | without search parameters the party is "2 travelers" |
| TripPrompt.TravelersSplit | supabase/functions/generate-ai-itinerary/index.ts:25-27 | the phrase splits at ", " into the adult part, then a children part exactly with children, then an infant part exactly with infants |
| TripPrompt.TravelersIsJoin | supabase/functions/generate-trip-suggestions/index.ts:24-26 | the phrase is its parts joined with ", " |
| TripPrompt.CountReadsBack | supabase/functions/generate-ai-itinerary/index.ts:26 | each count in the phrase reads back as its number |
| TripPrompt.CostsFor | supabase/functions/generate-ai-itinerary/index.ts:116 | 150 a day, total the days times the daily rate |
| TripPrompt.Failure | supabase/functions/generate-ai-itinerary/index.ts:173-181 | a failure has status 500, no success and no body |
| TripPrompt.Success | supabase/functions/generate-ai-itinerary/index.ts:166-171 | a success has status 200 and carries the value |
| AiItineraryFunction.DefaultDaysFit | supabase/functions/generate-ai-itinerary/index.ts:24 | without requested days the plan has the fewest days holding all places at three a day |
| AiItineraryFunction.PlannedDays | supabase/functions/generate-ai-itinerary/index.ts:24 | a non-zero requested length is used; otherwise the fewest days that hold three places each |
| AiItineraryFunction.FirstIndex | supabase/functions/generate-ai-itinerary/index.ts:47 | `indexOf`: the first position holding the element |
| AiItineraryFunction.FirstOccurrencesDedupe | supabase/functions/generate-ai-itinerary/index.ts:47 | the `indexOf` filter keeps the first occurrence of each element in order, like a set-based dedupe |
| AiItineraryFunction.UniqueTypes | supabase/functions/generate-ai-itinerary/index.ts:47 | each type once, and exactly the types present |
| AiItineraryFunction.NoFenceLeft | supabase/functions/generate-ai-itinerary/index.ts:159 | after removing fences no fence remains, even where removal brings backticks together |
| AiItineraryFunction.RemoveMarker | supabase/functions/generate-ai-itinerary/index.ts:159 | removing a marker never lengthens the text |
| AiItineraryFunction.CleanResponse | supabase/functions/generate-ai-itinerary/index.ts:159 | the cleaned answer holds no code fence |
| AiItineraryFunction.PlainAnswerOnlyTrimmed | supabase/functions/generate-ai-itinerary/index.ts:159 | an answer without backticks is only trimmed |
| AiItineraryFunction.Respond | supabase/functions/generate-ai-itinerary/index.ts:152-181 | status 500 exactly without a key, on a gateway error or when the cleaned answer does not parse; success exactly with status 200 and the parsed value |
| TripSuggestionsFunction.SuggestedDays | supabase/functions/generate-trip-suggestions/index.ts:23 | the requested days when non-zero, else 3 |
| TripSuggestionsFunction.JsonFenceIsFence | supabase/functions/generate-trip-suggestions/index.ts:143-146 | a "```json" fence is also a plain fence, so the second branch only sees plain fences |
| TripSuggestionsFunction.ExtractJson | supabase/functions/generate-trip-suggestions/index.ts:143-149 | a fenced answer yields text with no fence in it; an answer without a fence is parsed unchanged |
| TripSuggestionsFunction.FencedPiece | supabase/functions/generate-trip-suggestions/index.ts:143-147 | the trimmed piece between the first fence and the next holds no fence |
| TripSuggestionsFunction.ExtractedAfterJsonFence | supabase/functions/generate-trip-suggestions/index.ts:143-144 | the extracted text is a piece of the answer lying after its first "```json" fence |
| TripSuggestionsFunction.Respond | supabase/functions/generate-trip-suggestions/index.ts:134-172 | status 500 exactly without a key, on a gateway error or when the extracted text does not parse; success exactly with status 200 |

## Left out

- The great-circle distance (`getDistance`, `toRad`) is a parameter. Floating-point effects and NaN are not modelled: distances are exact reals, and the budget is computed exactly in whole numbers.
- All map rendering is left out: Leaflet, markers and icons, polylines, `fitBounds`, animations and timers. The map's distance from a drop point is a parameter.
- Network calls are parameters or outcomes: the routing service, geocoding, the server functions, the language-model gateway and the streaming reader. Superseded in-flight requests are not modelled; every search completes before the next event.
- Browser storage is treated as the identity. Bookmark ids (a timestamp) are parameters. The image upload (`FileReader`) and the image payload of chat requests are left out.
- Toasts, navigation, console logging and all JSX presentation are left out, apart from the line classification of chat messages.
- The road-route request and the numbered markers on the planning map follow the selection order, not the optimised order. The model makes no claim about them.
- Text.ToLower: lower-cases ASCII letters only. JavaScript's full Unicode case mapping and UTF-16 lengths are not modelled.
- TripContext.Merge: an optional field that the incoming record explicitly sets to `undefined` overwrites in the source; the model treats it as absent, so the earlier value is kept.
- ItineraryView.FirstLocation: a first day without a morning slot reads as "no location"; the source would throw there.
- ItineraryView.DetectCurrency: a country named like a built-in object property (for example `constructor`) is treated as unknown.
- TripSearchBar.SearchBar.Search: the resolved suggestions are returned in the outcome instead of stored; the store's trip-suggestions field is not modelled. Dates are day numbers, so `differenceInDays` has no time-of-day or time-zone effects.
- TripSuggestionsFunction.ExtractedAfterJsonFence: states only that the text is a piece after the first "```json" fence, not that it ends at the next fence; the contract of `ExtractJson` states that no fence is inside it.
- The server functions' traveller counts are taken as whole non-negative numbers; a request carrying other JSON values is not modelled.
- TravelChatbox.ChatSession.StreamChat: follows the reader as written, where a complete line that fails to parse stalls the stream (see Findings); the corrected reader `DrainSkipping` is proved on its own and the session does not use it, so that the session keeps the source's behaviour.
- SimpleSearchBar.SearchBox.Blur: the 200 ms delay before the dropdown closes is not modelled.
- `isDestinationSaved` on the explore page is the store's `IsLocationSaved` and is not modelled twice.
- The 3-D globe, the other chat sidebars, the destination-search and chat server functions, and the static pages are outside this model.

## Findings

| source | as written | input that shows it | evidently intended | confidence | as-written member | corrected member |
|---|---|---|---|---|---|---|
| src/components/ItineraryFlatMap.tsx:121-123 | a marker's day is derived from its index among the kept places, three to a day | two days whose only place is a morning one: the second place is marker 2 and is labelled day 1 | each marker shows the day its place belongs to | high (not executed) | ItineraryFlatMap.AsWrittenMisnumbersDays | ItineraryFlatMap.Markers |
| src/components/TravelChatbox.tsx:133-136 | a complete `data:` line whose payload does not parse is put back at the head of the buffer and the inner loop stops | a bad data line, a newline, then `data: {"choices":[{"delta":{"content":"Hi"}}]}` and a newline: the reply stays empty and every later chunk is ignored | the put-back is meant for a payload cut off mid-line; a complete line that cannot parse is skipped and reading goes on | medium (not executed) | TravelChatbox.StallIsPermanent | TravelChatbox.DrainSkipping |
