/**
 * The logic inside the main window (Nuage/Views/MainView.swift): the
 * sidebar's navigation destinations, their titles, icons, identities and
 * hashing, the order of the sidebar, and which list each destination opens.
 */
module MainView {
  import opened Optional
  import Models

  /** A sidebar destination. Equality is the one Swift synthesizes:
      same case and same associated values. */
  datatype NavigationDetail =
    | Stream
    | Likes
    | History
    | Following
    | Playlist(name: string, id: string)

  /** The destination shown when the window opens. */
  const InitialSelection: NavigationDetail := Stream

  /** The four destinations that exist for every account, in sidebar order. */
  const FixedDetails: seq<NavigationDetail> := [Stream, Likes, History, Following]

  /** The label of a destination. */
  function Title(d: NavigationDetail): (r: string)
    ensures d.Playlist? ==> r == d.name
    ensures d == Stream ==> r == "Stream"
    ensures d == Likes ==> r == "Likes"
    ensures d == History ==> r == "History"
    ensures d == Following ==> r == "Following"
  {
    match d
    case Stream => "Stream"
    case Likes => "Likes"
    case History => "History"
    case Following => "Following"
    case Playlist(name, _) => name
  }

  /** The system symbol drawn beside a destination: each fixed destination
      has one, playlists have none. */
  function ImageName(d: NavigationDetail): (r: Option<string>)
    ensures r.None? <==> d.Playlist?
    ensures d == Stream ==> r == Some("bolt.horizontal.fill")
    ensures d == Likes ==> r == Some("heart.fill")
    ensures d == History ==> r == Some("clock.fill")
    ensures d == Following ==> r == Some("person.2.fill")
  {
    match d
    case Stream => Some("bolt.horizontal.fill")
    case Likes => Some("heart.fill")
    case History => Some("clock.fill")
    case Following => Some("person.2.fill")
    case Playlist(_, _) => None
  }

  /** `Identifiable.id`: a playlist's id, otherwise the title. */
  function Id(d: NavigationDetail): (r: string)
    ensures d.Playlist? ==> r == d.id
    ensures !d.Playlist? ==> r == Title(d)
  {
    if d.Playlist? then d.id else Title(d)
  }

  /** The fixed destinations are told apart by their titles, and hence by
      their ids. */
  lemma FixedTitlesDistinct(a: NavigationDetail, b: NavigationDetail)
    requires !a.Playlist? && !b.Playlist?
    ensures Title(a) == Title(b) <==> a == b
    ensures Id(a) == Id(b) <==> a == b
  {
  }

  /** `hash(into:)`: the strings whose hash values are fed to the hasher,
      in order: the title, then the id for a playlist. */
  function HashInputs(d: NavigationDetail): (r: seq<string>)
    ensures |r| == (if d.Playlist? then 2 else 1)
    ensures r[0] == Title(d)
    ensures d.Playlist? ==> r[1] == d.id
  {
    if d.Playlist? then [Title(d), d.id] else [Title(d)]
  }

  /** The hash agrees with the synthesized equality in both directions:
      equal destinations feed the hasher the same strings, and the strings
      fed determine the destination, so only a collision of the string
      hashes can make two different destinations hash alike. */
  lemma HashMatchesEquality(a: NavigationDetail, b: NavigationDetail)
    ensures HashInputs(a) == HashInputs(b) <==> a == b
  {
  }

  /** The sidebar entry of a library playlist. */
  function PlaylistEntry(p: Models.Playlist): (r: NavigationDetail)
    ensures r.Playlist? && ImageName(r).None?
    ensures Title(r) == p.title && Id(r) == p.id
  {
    Playlist(p.title, p.id)
  }

  /** The "Playlists" section: one entry per library playlist, in library
      order. */
  function PlaylistEntries(playlists: seq<Models.Playlist>): (r: seq<NavigationDetail>)
    ensures |r| == |playlists|
    ensures forall i :: 0 <= i < |playlists| ==> r[i] == PlaylistEntry(playlists[i])
  {
    if |playlists| == 0 then []
    else [PlaylistEntry(playlists[0])] + PlaylistEntries(playlists[1..])
  }

  /** The sidebar: stream, likes, history and following, then the library's
      playlists in order. */
  function Sidebar(playlists: seq<Models.Playlist>): (r: seq<NavigationDetail>)
    ensures |r| == |FixedDetails| + |playlists|
    ensures r[..|FixedDetails|] == FixedDetails
    ensures forall i :: 0 <= i < |playlists| ==>
      r[|FixedDetails| + i] == Playlist(playlists[i].title, playlists[i].id)
  {
    FixedDetails + PlaylistEntries(playlists)
  }

  /** Reading the sidebar: an entry carries an icon exactly when it is one
      of the four fixed entries, playlist entries show the playlist's title
      and are identified by its id, and the window opens on the first
      entry. */
  lemma SidebarEntries(playlists: seq<Models.Playlist>, i: nat)
    requires i < |Sidebar(playlists)|
    ensures ImageName(Sidebar(playlists)[i]).None? <==> i >= |FixedDetails|
    ensures i >= |FixedDetails| ==>
      Title(Sidebar(playlists)[i]) == playlists[i - |FixedDetails|].title
      && Id(Sidebar(playlists)[i]) == playlists[i - |FixedDetails|].id
    ensures Sidebar(playlists)[0] == InitialSelection
  {
  }

  /** The kind of list a destination opens. */
  datatype ListKind = PostListView | TrackListView | UserGridView

  /** The kind of value a list shows. */
  datatype ElementKind = Posts | Tracks | Users

  /** What each kind of list shows. */
  function Shows(k: ListKind): ElementKind {
    match k
    case PostListView => Posts
    case TrackListView => Tracks
    case UserGridView => Users
  }

  /** The service requests a destination loads its content from. For the
      likes and followings of the signed-in user the request waits until a
      user is present; for a playlist the playlist is fetched first and its
      track ids then feed the track fetches. */
  datatype Source =
    | StreamRequest
    | TrackLikesOfCurrentUser
    | HistoryRequest
    | FollowingsOfCurrentUser
    | PlaylistTracks(playlistId: string)

  /** What each request yields. */
  function Yields(s: Source): ElementKind {
    match s
    case StreamRequest => Posts
    case TrackLikesOfCurrentUser => Tracks
    case HistoryRequest => Tracks
    case FollowingsOfCurrentUser => Users
    case PlaylistTracks(_) => Tracks
  }

  /** The detail pane for a destination. */
  datatype Screen = Screen(list: ListKind, source: Source, navigationTitle: string)

  /** `detailView(for:)`: stream opens a post list; likes, history and
      playlists a track list; following a user grid. Every screen is titled
      with its destination's title and loads elements of the kind its list
      shows. */
  function DetailView(d: NavigationDetail): (r: Screen)
    ensures r.navigationTitle == Title(d)
    ensures r.list == PostListView <==> d == Stream
    ensures r.list == TrackListView <==> d == Likes || d == History || d.Playlist?
    ensures r.list == UserGridView <==> d == Following
    ensures d == Stream ==> r.source == StreamRequest
    ensures d == Likes ==> r.source == TrackLikesOfCurrentUser
    ensures d == History ==> r.source == HistoryRequest
    ensures d == Following ==> r.source == FollowingsOfCurrentUser
    ensures d.Playlist? ==> r.source == PlaylistTracks(d.id)
    ensures Yields(r.source) == Shows(r.list)
  {
    match d
    case Stream => Screen(PostListView, StreamRequest, Title(d))
    case Likes => Screen(TrackListView, TrackLikesOfCurrentUser, Title(d))
    case History => Screen(TrackListView, HistoryRequest, Title(d))
    case Following => Screen(UserGridView, FollowingsOfCurrentUser, Title(d))
    case Playlist(_, id) => Screen(TrackListView, PlaylistTracks(id), Title(d))
  }

  /** A request to the service, as built by the detail pane. */
  datatype Endpoint =
    | StreamEndpoint
    | TrackLikesOf(user: Models.User)
    | HistoryEndpoint
    | FollowingsOf(user: Models.User)
    | PlaylistEndpoint(playlistId: string)

  /** The first request a source issues, given the signed-in user: none yet
      for the user-dependent sources while no user is signed in (the
      publisher filters out `nil` users), otherwise the request for that
      user. */
  function FirstRequest(s: Source, user: Option<Models.User>): (r: Option<Endpoint>)
    ensures r.None? <==>
      (s == TrackLikesOfCurrentUser || s == FollowingsOfCurrentUser) && user.None?
    ensures r.Some? && s == TrackLikesOfCurrentUser ==> r.value == TrackLikesOf(user.value)
    ensures r.Some? && s == FollowingsOfCurrentUser ==> r.value == FollowingsOf(user.value)
    ensures s == StreamRequest ==> r == Some(StreamEndpoint)
    ensures s == HistoryRequest ==> r == Some(HistoryEndpoint)
    ensures s.PlaylistTracks? ==> r == Some(PlaylistEndpoint(s.playlistId))
  {
    match s
    case StreamRequest => Some(StreamEndpoint)
    case TrackLikesOfCurrentUser => if user.Some? then Some(TrackLikesOf(user.value)) else None
    case HistoryRequest => Some(HistoryEndpoint)
    case FollowingsOfCurrentUser => if user.Some? then Some(FollowingsOf(user.value)) else None
    case PlaylistTracks(id) => Some(PlaylistEndpoint(id))
  }

  /** The track ids a fetched playlist contributes to its track list: its
      id list, or none when the service sent no list. */
  function PlaylistTrackIds(p: Models.Playlist): (r: seq<int>)
    ensures p.trackIDs.None? ==> r == []
    ensures p.trackIDs.Some? ==> r == p.trackIDs.value
  {
    p.trackIDs.GetOr([])
  }
}
