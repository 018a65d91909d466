/**
 * The entities of the SoundCloud client library, reduced to the fields the
 * views read. The library itself is not part of this model: derived
 * properties such as `Post.tracks` appear here as plain fields, and equality
 * of these values is structural.
 */
module Models {
  import opened Optional

  datatype User = User(id: int, username: string)

  datatype Track = Track(id: int, title: string, user: User, description: Option<string>)

  /** A playlist as listed in the library; `trackIDs` is absent when the
      service did not send the id list. */
  datatype Playlist = Playlist(id: string, title: string, trackIDs: Option<seq<int>>)

  /** What a feed post refers to. The views only distinguish tracks and
      playlists; `Other` stands for any further kind the library may deliver. */
  datatype Item = TrackItem(track: Track) | PlaylistItem(playlist: Playlist) | Other

  /** A feed entry: who posted or reposted what, and the playable tracks it
      contributes to the play queue. */
  datatype Post = Post(user: User, isRepost: bool, item: Item, tracks: seq<Track>)
}
