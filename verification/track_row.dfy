/**
 * The logic inside the track row (Nuage/Views/Lists/Rows/TrackRow.swift):
 * how a track's description is turned into the text shown under it, and
 * the equality the row declares so that the list can skip redrawing it.
 *
 * Characters are Unicode scalars. The character class that is trimmed is a
 * parameter `ws`; the lemmas rely only on it containing the newline.
 * `WhitespaceOrNewline` is Foundation's `.whitespacesAndNewlines`.
 */
module TrackRow {
  import opened Optional
  import opened Models

  /** Foundation's `.whitespacesAndNewlines`: the Unicode space separators
      (general category Zs), the line and paragraph separators, the controls
      U+0009 to U+000D, and U+0085. */
  predicate WhitespaceOrNewline(c: char)
    ensures c == ' ' || c == '\t' || c == '\n' || c == '\r' ==> WhitespaceOrNewline(c)
    ensures ('a' <= c <= 'z') || ('A' <= c <= 'Z') || ('0' <= c <= '9') ==> !WhitespaceOrNewline(c)
  {
    || c == ' ' || c == '\U{00A0}' || c == '\U{1680}'
    || ('\U{2000}' <= c <= '\U{200A}')
    || c == '\U{202F}' || c == '\U{205F}' || c == '\U{3000}'
    || c == '\U{2028}' || c == '\U{2029}'
    || ('\U{0009}' <= c <= '\U{000D}')
    || c == '\U{0085}'
  }

  /** Number of characters of class `ws` at the start of `s`. */
  function LeadingCount(s: string, ws: char -> bool): (n: nat)
    ensures n <= |s|
    ensures forall k :: 0 <= k < n ==> ws(s[k])
    ensures n < |s| ==> !ws(s[n])
  {
    if |s| > 0 && ws(s[0]) then 1 + LeadingCount(s[1..], ws) else 0
  }

  /** Number of characters of class `ws` at the end of `s`. */
  function TrailingCount(s: string, ws: char -> bool): (n: nat)
    ensures n <= |s|
    ensures forall k :: |s| - n <= k < |s| ==> ws(s[k])
    ensures n < |s| ==> !ws(s[|s| - n - 1])
  {
    if |s| > 0 && ws(s[|s| - 1]) then 1 + TrailingCount(s[..|s| - 1], ws) else 0
  }

  /** `trimmingCharacters(in:)`: `s` without its leading and trailing run of
      `ws` characters. What is kept is one contiguous piece of `s`, everything
      cut on either side belongs to `ws`, and the piece neither starts nor
      ends with a `ws` character, so nothing more could have been cut. */
  function Trim(s: string, ws: char -> bool): (r: string)
    ensures |r| <= |s|
    ensures LeadingCount(s, ws) + |r| <= |s|
    ensures r == s[LeadingCount(s, ws) .. LeadingCount(s, ws) + |r|]
    ensures forall k :: 0 <= k < LeadingCount(s, ws) ==> ws(s[k])
    ensures forall k :: LeadingCount(s, ws) + |r| <= k < |s| ==> ws(s[k])
    ensures |r| > 0 ==> !ws(r[0]) && !ws(r[|r| - 1])
  {
    var lead := LeadingCount(s, ws);
    if lead == |s| then
      []
    else
      var trail := TrailingCount(s, ws);
      s[lead .. |s| - trail]
  }

  /** `replacingOccurrences(of: "\n", with: " ")`: every newline becomes a
      space and every other character stays where it is. */
  function ReplaceNewlines(s: string): (r: string)
    ensures |r| == |s|
    ensures forall k :: 0 <= k < |s| ==> r[k] == (if s[k] == '\n' then ' ' else s[k])
    ensures '\n' !in r
  {
    if |s| == 0 then []
    else [if s[0] == '\n' then ' ' else s[0]] + ReplaceNewlines(s[1..])
  }

  /** The text shown for a description: trimmed, then newlines flattened.
      It holds no newline, has exactly the trimmed text's length, and shows
      a space wherever the trimmed text has a newline. */
  function Normalize(s: string, ws: char -> bool): (r: string)
    ensures '\n' !in r
    ensures |r| == |Trim(s, ws)|
    ensures forall k :: 0 <= k < |r| ==>
      r[k] == (if Trim(s, ws)[k] == '\n' then ' ' else Trim(s, ws)[k])
  {
    ReplaceNewlines(Trim(s, ws))
  }

  /** The description line of a row: produced only when the track has a
      description; it is the description trimmed of Foundation's whitespace
      and newlines, with each remaining newline shown as a space, so it
      neither starts nor ends with such a character. */
  function DescriptionText(track: Track): (r: Option<string>)
    ensures r.None? <==> track.description.None?
    ensures r.Some? ==> '\n' !in r.value
    ensures r.Some? ==> |r.value| == |Trim(track.description.value, WhitespaceOrNewline)|
    ensures r.Some? ==> forall k :: 0 <= k < |r.value| ==>
      var t := Trim(track.description.value, WhitespaceOrNewline);
      r.value[k] == (if t[k] == '\n' then ' ' else t[k])
    ensures r.Some? && |r.value| > 0 ==>
      !WhitespaceOrNewline(r.value[0]) && !WhitespaceOrNewline(r.value[|r.value| - 1])
  {
    match track.description
    case None => None
    case Some(d) =>
      NormalizeHasNoEdgeWhitespace(d, WhitespaceOrNewline);
      Some(Normalize(d, WhitespaceOrNewline))
  }

  /** Since the newline is trimmed, the flattened text keeps the trimmed
      text's first and last characters, so it starts and ends with no
      character of the trimmed class either. */
  lemma NormalizeHasNoEdgeWhitespace(s: string, ws: char -> bool)
    requires ws('\n')
    ensures var r := Normalize(s, ws);
      |r| > 0 ==> !ws(r[0]) && !ws(r[|r| - 1])
  {
  }

  /** Trimming a text that already has no edge character of the class
      leaves it as it is. */
  lemma TrimOfTrimmed(s: string, ws: char -> bool)
    requires |s| > 0 ==> !ws(s[0]) && !ws(s[|s| - 1])
    ensures Trim(s, ws) == s
  {
  }

  /** Flattening newlines in a text that has none leaves it as it is. */
  lemma ReplaceWithoutNewlines(s: string)
    requires '\n' !in s
    ensures ReplaceNewlines(s) == s
  {
  }

  /** Normalising is idempotent: a shown description normalises to itself. */
  lemma NormalizeIdempotent(s: string, ws: char -> bool)
    requires ws('\n')
    ensures Normalize(Normalize(s, ws), ws) == Normalize(s, ws)
  {
  }

  /** The row built for a track, with the action its artwork triggers. */
  datatype TrackRowView<A> = TrackRowView(track: Track, onPlay: A)

  /** The row's `==`: two rows are equal exactly when they show the same
      track, whatever their play actions. Equal rows show the same
      description. */
  function RowsEqual<A>(a: TrackRowView<A>, b: TrackRowView<A>): (r: bool)
    ensures r ==> DescriptionText(a.track) == DescriptionText(b.track)
    ensures r <==> a.track == b.track
  {
    a.track == b.track
  }

  /** The row's `==` is an equivalence, as `Equatable` requires, and the
      play action plays no part in it. */
  lemma RowsEqualIsEquivalence<A>(a: TrackRowView<A>, b: TrackRowView<A>, c: TrackRowView<A>)
    ensures RowsEqual(a, a)
    ensures RowsEqual(a, b) ==> RowsEqual(b, a)
    ensures RowsEqual(a, b) && RowsEqual(b, c) ==> RowsEqual(a, c)
    ensures RowsEqual(a, TrackRowView(a.track, b.onPlay))
  {
  }
}
