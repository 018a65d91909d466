# Nuage: feed play queue, sidebar navigation and track rows

Nuage is a macOS client for a music-streaming service. Its views are SwiftUI
code, and three pieces of pure logic sit inside them. This project models
those pieces and proves their properties:

- **Feed playback** (`PostList`). Playing a post hands the player the tracks
  of every post in the feed, flattened into one queue, and the queue
  position where the chosen post's tracks begin. That position is the sum
  of the track counts of the posts before it. The module also covers the
  "posted"/"reposted" label and which row each post gets.
- **Sidebar navigation** (`MainView`). The `NavigationDetail` destinations
  have a title, an icon, an id and a hand-written hash. The module covers
  the sidebar's order and the list each destination opens.
- **Track rows** (`TrackRow`). A track's description is shown trimmed of
  edge whitespace, with its newlines turned into spaces. Two rows are equal
  when they show the same track.

The library's entities (`User`, `Track`, `Playlist`, `Post`) are in module
`Models`, reduced to the fields the views read. Swift's `Optional` is in
module `Optional`.

## Model

| member | source | states |
|---|---|---|
| PostList.AllTracks | Nuage/Views/Lists/PostList.swift:22 | the queue's length is the sum of the posts' track counts |
| PostList.AllTracksMembers | Nuage/Views/Lists/PostList.swift:22 | a track is in the queue exactly when it is one of some post's tracks |
| PostList.TrackCounts | Nuage/Views/Lists/PostList.swift:23 | one count per post, in post order, each equal to that post's number of tracks |
| PostList.Reduce | Nuage/Views/Lists/PostList.swift:24 | folding `+` over the counts from the left, starting at `acc`, gives `acc` plus the sum of the counts |
| PostList.StartIndex | Nuage/Views/Lists/PostList.swift:24 | the folded counts of the posts before `idx` equal the length of those posts' flattened tracks; 0 for the first post; defined for `idx` up to the number of posts, as the range `0..<idx` demands |
| PostList.ReduceCountsIsLength | Nuage/Views/Lists/PostList.swift:22-24 | folding the track counts with `+` from `acc` yields `acc` plus the length of the flattened queue |
| PostList.AllTracksAppend | Nuage/Views/Lists/PostList.swift:22 | the queue of two consecutive runs of posts is the concatenation of their queues, so the queue is every post's tracks in post order |
| PostList.AllTracksSingle | Nuage/Views/Lists/PostList.swift:22 | a single post contributes exactly its own tracks to the queue |
| PostList.QueueSplit | Nuage/Views/Lists/PostList.swift:20-22 | for a valid `idx`, the queue is the tracks before post `idx`, then its tracks, then the tracks after it |
| PostList.PlayStartsAtChosenPost | Nuage/Views/Lists/PostList.swift:20-25 | `startIndex` plus the chosen post's track count fits in the queue; the queue slice of that length from `startIndex` is exactly the chosen post's tracks; the queue before it is exactly the earlier posts' tracks and the queue after that slice exactly the later posts' tracks |
| PostList.StartIndexStep | Nuage/Views/Lists/PostList.swift:24 | the start index of the next post is this post's start index plus its track count |
| PostList.StartIndexMonotonic | Nuage/Views/Lists/PostList.swift:24 | the start index never decreases along the feed and never exceeds the queue's length |
| PostList.PlayArguments | Nuage/Views/Lists/PostList.swift:20-26 | for a valid `idx`, the player gets the earlier posts' tracks, the chosen post's tracks and the later posts' tracks, in that order, with the start index equal to the number of the earlier posts' tracks, which is the position of the chosen post's first track when it has any |
| PostList.ActionLabel | Nuage/Views/Lists/PostList.swift:28 | the label is "reposted" exactly for reposts and "posted" exactly for the others |
| PostList.Row | Nuage/Views/Lists/PostList.swift:19-53 | the header is the author's username, a space and the action label; a track item gets a track row, a playlist item a playlist row, any other kind neither; both rows carry the entry's own play request |
| MainView.Title | Nuage/Views/MainView.swift:23-30 | "Stream", "Likes", "History", "Following" for the fixed destinations, the playlist's name for a playlist |
| MainView.ImageName | Nuage/Views/MainView.swift:33-40 | the icon is absent exactly for playlists; each fixed destination has its own symbol name |
| MainView.Id | Nuage/Views/MainView.swift:58-63 | a playlist is identified by its id, every other destination by its title |
| MainView.FixedTitlesDistinct | Nuage/Views/MainView.swift:23-30 | two fixed destinations have equal titles, and equal ids, exactly when they are the same destination |
| MainView.HashInputs | Nuage/Views/MainView.swift:47-52 | the hasher receives the title, followed by the id only for a playlist |
| MainView.HashMatchesEquality | Nuage/Views/MainView.swift:45-52 | two destinations feed the hasher the same strings exactly when they are equal under the synthesized equality |
| MainView.PlaylistEntry | Nuage/Views/MainView.swift:88 | a library playlist becomes a playlist destination with no icon, titled with the playlist's title and identified by its id |
| MainView.PlaylistEntries | Nuage/Views/MainView.swift:86-90 | one playlist destination per library playlist, in library order, carrying its title and id |
| MainView.Sidebar | Nuage/Views/MainView.swift:80-90 | the sidebar lists stream, likes, history and following in that order, then one entry per playlist in library order |
| MainView.SidebarEntries | Nuage/Views/MainView.swift:69-90 | an entry has an icon exactly when it is one of the four fixed entries; a playlist entry shows that playlist's title and has its id; the initial selection is the first entry |
| MainView.DetailView | Nuage/Views/MainView.swift:153-179 | stream opens a post list of the stream; likes a track list of the signed-in user's liked tracks; history a track list of the listening history; following a user grid of the signed-in user's followings; a playlist a track list of that playlist's tracks; each screen is titled with its destination's title and loads the kind of element its list shows |
| MainView.FirstRequest | Nuage/Views/MainView.swift:155-172 | stream requests the stream endpoint and history the history endpoint at once; a playlist requests that playlist by id; likes and followings request the signed-in user's liked tracks and followings, and issue no request while no user is signed in |
| MainView.PlaylistTrackIds | Nuage/Views/MainView.swift:172-173 | a fetched playlist contributes its track ids, or no ids when the service sent none |
| TrackRow.WhitespaceOrNewline | Nuage/Views/Lists/Rows/TrackRow.swift:65 | the trimmed class contains the space, tab, newline and carriage return, and no ASCII letter or digit |
| TrackRow.LeadingCount | Nuage/Views/Lists/Rows/TrackRow.swift:65 | the length of the longest prefix made only of trimmed characters |
| TrackRow.TrailingCount | Nuage/Views/Lists/Rows/TrackRow.swift:65 | the length of the longest suffix made only of trimmed characters |
| TrackRow.Trim | Nuage/Views/Lists/Rows/TrackRow.swift:65 | the result is one contiguous piece of the input; everything cut on either side is a trimmed character; the result does not start or end with one |
| TrackRow.ReplaceNewlines | Nuage/Views/Lists/Rows/TrackRow.swift:66 | same length; each newline becomes a space and every other character is kept in place; no newline remains |
| TrackRow.Normalize | Nuage/Views/Lists/Rows/TrackRow.swift:65-66 | the shown text has exactly the trimmed text's length, shows a space wherever the trimmed text has a newline and the trimmed text's character everywhere else, and so contains no newline |
| TrackRow.DescriptionText | Nuage/Views/Lists/Rows/TrackRow.swift:64-67 | a description text is produced exactly when the track has a description; it is that description trimmed of Foundation's whitespace and newlines, with each newline shown as a space; it contains no newline and neither starts nor ends with a whitespace or newline character |
| TrackRow.NormalizeHasNoEdgeWhitespace | Nuage/Views/Lists/Rows/TrackRow.swift:65-66 | when the trimmed class contains the newline, the shown text neither starts nor ends with a trimmed character |
| TrackRow.TrimOfTrimmed | Nuage/Views/Lists/Rows/TrackRow.swift:65 | trimming a text with no trimmed character at its edges returns it unchanged |
| TrackRow.ReplaceWithoutNewlines | Nuage/Views/Lists/Rows/TrackRow.swift:66 | replacing newlines in a text without newlines returns it unchanged |
| TrackRow.NormalizeIdempotent | Nuage/Views/Lists/Rows/TrackRow.swift:65-66 | normalising a shown description again changes nothing |
| TrackRow.RowsEqual | Nuage/Views/Lists/Rows/TrackRow.swift:78-80 | two rows are equal exactly when their tracks are equal, and equal rows show the same description |
| TrackRow.RowsEqualIsEquivalence | Nuage/Views/Lists/Rows/TrackRow.swift:76-80 | row equality is reflexive, symmetric and transitive, and ignores the play action |

## Left out

- The paginated loader (`InfinitePublisher`, `InfiniteList`, `Slice`): the feed's posts are taken as a given sequence. The loader is used by these views but is not part of this model, so nothing is said about paging.
- The comment list: it only passes each comment on to its row.
- Layout, view modifiers, navigation chrome, the toolbar and the search field are presentation only.
- Network requests and the library load on appearance: these are asynchronous I/O. Requests are modelled as `MainView.Endpoint` values, and the sidebar takes the loaded playlists as a parameter.
- The player (`play(_:from:on:)`): it is external. Only its arguments are modelled, as `PostList.PlayRequest`. When the chosen post has no tracks, the start index is still the number of the earlier posts' tracks: if a later post has tracks, it points at the first track of the next such post, so the player starts that other post; if no later post has tracks, it equals the queue length. What the player does in either case is outside this model.
- Duration formatting and the remaining row content (title, counts, like and repost buttons) have no logic to state.
- `Post.tracks`, `Post.item` and `Track` equality belong to the client library, which is not part of this model. `tracks` is a plain field, `Item` admits kinds other than track and playlist, and equality is structural.
- PostList.StartIndex: Swift's 64-bit `Int` traps on overflow and Dafny's integers are unbounded; a feed with more than 2^63 tracks is not a concern.
- TrackRow.Trim: characters are Unicode scalars, and trimming removes scalars of the class one at a time. `TrackRow.WhitespaceOrNewline` transcribes Foundation's whitespace-and-newline set. The proofs about `Normalize` only use the fact that the class contains the newline.
- TrackRow.ReplaceNewlines: the model replaces every newline scalar, including the one inside "\r\n", so `Normalize("a\r\nb", WhitespaceOrNewline)` is "a\r b". Swift's `String` treats "\r\n" as one character; the no-newline promise holds for the program only if Foundation's search matches the newline inside it, which this model assumes.
- MainView.FirstRequest: the likes and followings publishers request data again on every later non-nil user. Only the first request is modelled.
