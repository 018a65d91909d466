/**
 * The logic inside the feed view (Nuage/Views/Lists/PostList.swift): the
 * play queue and start position handed to the player when a post is
 * played, the "posted"/"reposted" label, and which row a post gets.
 */
module PostList {
  import opened Models
  import TrackRow

  /** `posts.flatMap { $0.tracks }`: the play queue, exactly as long as the
      posts' track counts add up to. */
  function AllTracks(posts: seq<Post>): (r: seq<Track>)
    ensures |r| == Sum(TrackCounts(posts))
  {
    if |posts| == 0 then [] else posts[0].tracks + AllTracks(posts[1..])
  }

  /** `posts.map { $0.tracks.count }`: one count per post, in post order. */
  function TrackCounts(posts: seq<Post>): (r: seq<nat>)
    ensures |r| == |posts|
    ensures forall i :: 0 <= i < |posts| ==> r[i] == |posts[i].tracks|
  {
    if |posts| == 0 then [] else [|posts[0].tracks|] + TrackCounts(posts[1..])
  }

  /** `reduce(0, +)`: a left fold of addition, starting from `acc`; it adds
      `acc` to the sum of `xs`. */
  function Reduce(xs: seq<nat>, acc: nat): (r: nat)
    ensures r == acc + Sum(xs)
  {
    if |xs| == 0 then acc else Reduce(xs[1..], acc + xs[0])
  }

  /** The sum of `xs`, added up from the right. */
  function Sum(xs: seq<nat>): nat {
    if |xs| == 0 then 0 else xs[0] + Sum(xs[1..])
  }

  /** `trackCounts[0..<idx].reduce(0, +)`: where in the play queue the
      tracks of post `idx` begin, namely after every track of the posts
      before it. The range `0..<idx` traps beyond `posts.count`. */
  function StartIndex(posts: seq<Post>, idx: nat): (r: nat)
    requires idx <= |posts|
    ensures r == |AllTracks(posts[..idx])|
    ensures idx == 0 ==> r == 0
  {
    ReduceCountsIsLength(posts[..idx], 0);
    assert TrackCounts(posts)[..idx] == TrackCounts(posts[..idx]);
    Reduce(TrackCounts(posts)[..idx], 0)
  }

  /** Folding the track counts adds up the length of the play queue. */
  lemma ReduceCountsIsLength(posts: seq<Post>, acc: nat)
    ensures Reduce(TrackCounts(posts), acc) == acc + |AllTracks(posts)|
  {
  }

  /** Every track of every post is in the play queue, and every track in
      the queue belongs to some post. */
  lemma {:induction false} AllTracksMembers(posts: seq<Post>, t: Track)
    ensures t in AllTracks(posts) <==> exists i :: 0 <= i < |posts| && t in posts[i].tracks
  {
    if |posts| > 0 {
      AllTracksMembers(posts[1..], t);
      if t in AllTracks(posts) && t !in posts[0].tracks {
        var i :| 0 <= i < |posts[1..]| && t in posts[1..][i].tracks;
        assert t in posts[i + 1].tracks;
      }
      if exists i :: 0 <= i < |posts| && t in posts[i].tracks {
        var i :| 0 <= i < |posts| && t in posts[i].tracks;
        if i > 0 {
          assert t in posts[1..][i - 1].tracks;
        }
      }
    }
  }

  /** The play queue of consecutive runs of posts is the concatenation of
      their play queues. */
  lemma {:induction false} AllTracksAppend(a: seq<Post>, b: seq<Post>)
    ensures AllTracks(a + b) == AllTracks(a) + AllTracks(b)
  {
    if |a| == 0 {
      assert a + b == b;
    } else {
      assert (a + b)[1..] == a[1..] + b;
      AllTracksAppend(a[1..], b);
    }
  }

  /** A single post contributes exactly its own tracks. */
  lemma AllTracksSingle(p: Post)
    ensures AllTracks([p]) == p.tracks
  {
  }

  /** The queue splits around post `idx`: the tracks before it, its own
      tracks, and the tracks after it. */
  lemma {:induction false} QueueSplit(posts: seq<Post>, idx: nat)
    requires idx < |posts|
    ensures AllTracks(posts)
      == AllTracks(posts[..idx]) + posts[idx].tracks + AllTracks(posts[idx + 1..])
  {
    var before, rest := posts[..idx], posts[idx..];
    assert posts == before + rest;
    AllTracksAppend(before, rest);
    assert rest[0] == posts[idx] && rest[1..] == posts[idx + 1..];
  }

  /** The three parts of a concatenation are recovered by slicing at the
      parts' lengths. */
  lemma SliceConcat<T>(a: seq<T>, b: seq<T>, c: seq<T>)
    ensures (a + b + c)[..|a|] == a
    ensures (a + b + c)[|a| .. |a| + |b|] == b
    ensures (a + b + c)[|a| + |b|..] == c
  {
  }

  /** Playing post `idx` starts the queue exactly at its first track: the
      slice of the queue from the start index holds that post's tracks, the
      part before it the earlier posts' tracks, and the part after it the
      later posts' tracks. */
  lemma {:induction false} PlayStartsAtChosenPost(posts: seq<Post>, idx: nat)
    requires idx < |posts|
    ensures StartIndex(posts, idx) + |posts[idx].tracks| <= |AllTracks(posts)|
    ensures AllTracks(posts)[StartIndex(posts, idx) .. StartIndex(posts, idx) + |posts[idx].tracks|]
      == posts[idx].tracks
    ensures AllTracks(posts)[..StartIndex(posts, idx)] == AllTracks(posts[..idx])
    ensures AllTracks(posts)[StartIndex(posts, idx) + |posts[idx].tracks|..] == AllTracks(posts[idx + 1..])
  {
    QueueSplit(posts, idx);
    SliceConcat(AllTracks(posts[..idx]), posts[idx].tracks, AllTracks(posts[idx + 1..]));
  }

  /** Moving to the next post advances the start index by the tracks of the
      post passed over. */
  lemma {:induction false} StartIndexStep(posts: seq<Post>, idx: nat)
    requires idx < |posts|
    ensures StartIndex(posts, idx + 1) == StartIndex(posts, idx) + |posts[idx].tracks|
  {
    assert posts[..idx + 1] == posts[..idx] + [posts[idx]];
    AllTracksAppend(posts[..idx], [posts[idx]]);
    AllTracksSingle(posts[idx]);
  }

  /** The start index never decreases along the feed, and the start index
      past the last post is the length of the whole queue. */
  lemma {:induction false} StartIndexMonotonic(posts: seq<Post>, i: nat, j: nat)
    requires i <= j <= |posts|
    ensures StartIndex(posts, i) <= StartIndex(posts, j) <= |AllTracks(posts)|
  {
    assert posts[..j] == posts[..i] + posts[i..j];
    AllTracksAppend(posts[..i], posts[i..j]);
    assert posts == posts[..j] + posts[j..];
    AllTracksAppend(posts[..j], posts[j..]);
  }

  /** The arguments of `play(allTracks, from: startIndex, on: player)`. */
  datatype PlayRequest = PlayRequest(queue: seq<Track>, startIndex: nat)

  /** The `onPlay` closure of the row for post `idx`: the player receives
      the whole feed's queue, positioned after the earlier posts' tracks:
      on the chosen post's first track when it has tracks, otherwise on the
      first track of the next post that has any, or at the queue's end. */
  function PlayArguments(posts: seq<Post>, idx: nat): (r: PlayRequest)
    requires idx < |posts|
    ensures r.queue == AllTracks(posts[..idx]) + posts[idx].tracks + AllTracks(posts[idx + 1..])
    ensures r.startIndex == |AllTracks(posts[..idx])|
  {
    QueueSplit(posts, idx);
    PlayRequest(AllTracks(posts), StartIndex(posts, idx))
  }

  /** The verb after the author's name. */
  function ActionLabel(post: Post): (r: string)
    ensures r == "reposted" <==> post.isRepost
    ensures r == "posted" <==> !post.isRepost
  {
    if post.isRepost then "reposted" else "posted"
  }

  /** The content below a post's header. */
  datatype RowBody =
    | TrackRowBody(row: TrackRow.TrackRowView<PlayRequest>)
    | PlaylistRowBody(playlist: Playlist, onPlay: PlayRequest)
    | NoBody

  /** One feed entry: the author line and the row for the posted item. */
  datatype PostRow = PostRow(author: User, header: string, body: RowBody)

  /** The row builder for entry `idx`: a track gets a track row, a playlist
      a playlist row, any other kind no row; both rows play through the
      `onPlay` of that same entry. */
  function Row(posts: seq<Post>, idx: nat): (r: PostRow)
    requires idx < |posts|
    ensures r.author == posts[idx].user
    ensures r.header == posts[idx].user.username + " " + ActionLabel(posts[idx])
    ensures r.body.TrackRowBody? <==> posts[idx].item.TrackItem?
    ensures r.body.PlaylistRowBody? <==> posts[idx].item.PlaylistItem?
    ensures r.body.TrackRowBody? ==>
      r.body.row == TrackRow.TrackRowView(posts[idx].item.track, PlayArguments(posts, idx))
    ensures r.body.PlaylistRowBody? ==>
      r.body.playlist == posts[idx].item.playlist && r.body.onPlay == PlayArguments(posts, idx)
  {
    var post := posts[idx];
    var onPlay := PlayArguments(posts, idx);
    var header := post.user.username + " " + ActionLabel(post);
    match post.item
    case TrackItem(track) => PostRow(post.user, header, TrackRowBody(TrackRow.TrackRowView(track, onPlay)))
    case PlaylistItem(playlist) => PostRow(post.user, header, PlaylistRowBody(playlist, onPlay))
    case Other => PostRow(post.user, header, NoBody)
  }
}
