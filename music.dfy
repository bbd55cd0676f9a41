/**
 * The music commands (cogs/music.py) apart from the audio node: the shaping of a `play`
 * query, the `M:S` timecode of `seek`, the checks and effect of `remove`, `volume` and
 * `disconnect`, and the numbering of the queue pages.
 */
module Music {
  import opened Wrappers
  import Parsing
  import Sequences

  /* ---------------------------------------------------------------------------------------
   * Python's str.split(sep) and its inverse
   * --------------------------------------------------------------------------------------- */

  /** The parts of `s` between occurrences of `sep`; always at least one part. */
  function Split(s: string, sep: char): (r: seq<string>)
    ensures |r| >= 1
  {
    if s == [] then [""]
    else if s[0] == sep then [""] + Split(s[1..], sep)
    else
      var rest := Split(s[1..], sep);
      [[s[0]] + rest[0]] + rest[1..]
  }

  /** The parts put back together with `sep` between them. */
  function Join(parts: seq<string>, sep: char): string
    requires |parts| >= 1
  {
    if |parts| == 1 then parts[0] else parts[0] + [sep] + Join(parts[1..], sep)
  }

  /** Splitting loses nothing: joining the parts gives the string back. */
  lemma {:induction false} JoinSplit(s: string, sep: char)
    ensures Join(Split(s, sep), sep) == s
  {
    if s != [] {
      JoinSplit(s[1..], sep);
      if s[0] != sep {
        var rest := Split(s[1..], sep);
        if |rest| > 1 {
          assert rest == [rest[0]] + rest[1..];
          assert Join(rest, sep) == rest[0] + [sep] + Join(rest[1..], sep);
        }
      }
    }
  }

  /** No part contains the separator. */
  lemma {:induction false} SplitPartsHaveNoSeparator(s: string, sep: char)
    ensures forall k :: 0 <= k < |Split(s, sep)| ==> sep !in Split(s, sep)[k]
  {
    if s != [] {
      SplitPartsHaveNoSeparator(s[1..], sep);
      if s[0] != sep {
        var rest := Split(s[1..], sep);
        assert sep !in rest[0];
      }
    }
  }

  /** A string without the separator is a single part. */
  lemma {:induction false} SplitNoSeparator(s: string, sep: char)
    requires sep !in s
    ensures Split(s, sep) == [s]
  {
    if s != [] {
      assert s[0] in s && sep !in s[1..];
      SplitNoSeparator(s[1..], sep);
      assert s == [s[0]] + s[1..];
    }
  }

  /** A first part without the separator is split off whole. */
  lemma {:induction false} SplitAfter(a: string, sep: char, b: string)
    requires sep !in a
    ensures Split(a + [sep] + b, sep) == [a] + Split(b, sep)
  {
    if a != [] {
      var s := a + [sep] + b;
      assert s[0] == a[0] && a[0] in a && s[1..] == a[1..] + [sep] + b;
      assert sep !in a[1..];
      SplitAfter(a[1..], sep, b);
      assert a == [a[0]] + a[1..];
    } else {
      assert (a + [sep] + b)[1..] == b;
    }
  }

  /* ---------------------------------------------------------------------------------------
   * seek
   * --------------------------------------------------------------------------------------- */

  /** The target of `seek` in milliseconds, or `None` for a bad argument. */
  function ParseSeek(timecode: string): (r: Option<int>)
    ensures r.Some? <==>
      |Split(timecode, ':')| == 2
      && Parsing.IsDigits(Split(timecode, ':')[0]) && Parsing.IsDigits(Split(timecode, ':')[1])
    ensures r.Some? ==> r.value >= 0
  {
    var parsed := Split(timecode, ':');
    if |parsed| != 2 || !Parsing.IsDigits(parsed[0]) || !Parsing.IsDigits(parsed[1]) then None
    else Some(Parsing.DigitsValue(parsed[0]) * 60 * 1000 + Parsing.DigitsValue(parsed[1]) * 1000)
  }

  /** Exactly the timecodes `A:B` with two digit strings are accepted, at `A` minutes and `B` seconds. */
  lemma SeekAccepts(a: string, b: string)
    requires Parsing.IsDigits(a) && Parsing.IsDigits(b)
    ensures ParseSeek(a + ":" + b) == Some(Parsing.DigitsValue(a) * 60000 + Parsing.DigitsValue(b) * 1000)
  {
    assert ':' !in a && ':' !in b by {
      assert forall i :: 0 <= i < |a| ==> Parsing.IsDigit(a[i]);
      assert forall i :: 0 <= i < |b| ==> Parsing.IsDigit(b[i]);
    }
    SplitAfter(a, ':', b);
    SplitNoSeparator(b, ':');
  }

  /** An accepted timecode is of that form. */
  lemma SeekAcceptedShape(timecode: string)
    requires ParseSeek(timecode).Some?
    ensures var parts := Split(timecode, ':');
      timecode == parts[0] + ":" + parts[1]
      && ParseSeek(timecode) == Some(Parsing.DigitsValue(parts[0]) * 60000 + Parsing.DigitsValue(parts[1]) * 1000)
  {
    JoinSplit(timecode, ':');
    var parts := Split(timecode, ':');
    assert parts[1..] == [parts[1]];
  }

  /** Seconds are not bounded by 59, and writing minutes and seconds back gives the same target. */
  lemma SeekRoundTrip(minutes: nat, seconds: nat)
    ensures ParseSeek(Parsing.NatToString(minutes) + ":" + Parsing.NatToString(seconds))
      == Some(minutes * 60000 + seconds * 1000)
  {
    Parsing.NatToStringValue(minutes);
    Parsing.NatToStringValue(seconds);
    SeekAccepts(Parsing.NatToString(minutes), Parsing.NatToString(seconds));
  }

  /** A bare number, an empty side, a sign and a third part are bad arguments. */
  lemma SeekRejects()
    ensures ParseSeek("90") == None
    ensures ParseSeek(":30") == None
    ensures ParseSeek("-1:30") == None
    ensures ParseSeek("1:2:3") == None
  {
    SplitNoSeparator("90", ':');
    SplitAfter("", ':', "30");
    assert "" + [':'] + "30" == ":30";
    SplitAfter("-1", ':', "30");
    assert "-1" + [':'] + "30" == "-1:30";
    SplitAfter("1", ':', "2:3");
    SplitAfter("2", ':', "3");
    assert "1" + [':'] + "2:3" == "1:2:3";
    assert "2" + [':'] + "3" == "2:3";
  }

  /* ---------------------------------------------------------------------------------------
   * play: the query
   * --------------------------------------------------------------------------------------- */

  predicate IsAngle(c: char)
  {
    c == '<' || c == '>'
  }

  /** How many angle brackets `s` starts with. */
  function LeadingAngles(s: string): (n: nat)
    ensures n <= |s|
    ensures forall k :: 0 <= k < n ==> IsAngle(s[k])
    ensures n < |s| ==> !IsAngle(s[n])
  {
    if s != [] && IsAngle(s[0]) then 1 + LeadingAngles(s[1..]) else 0
  }

  /** How many angle brackets `s` ends with. */
  function TrailingAngles(s: string): (n: nat)
    ensures n <= |s|
    ensures forall k :: |s| - n <= k < |s| ==> IsAngle(s[k])
    ensures n < |s| ==> !IsAngle(s[|s| - n - 1])
  {
    if s != [] && IsAngle(s[|s| - 1]) then 1 + TrailingAngles(s[..|s| - 1]) else 0
  }

  /** `s.strip("<>")`: what is left once the angle brackets at both ends are gone. */
  function Strip(s: string): string
  {
    var rest := s[LeadingAngles(s)..];
    rest[..|rest| - TrailingAngles(rest)]
  }

  /**
   * Stripping keeps a middle piece of the text, with no bracket at either end of it, and
   * everything it drops is a bracket.
   */
  lemma StripKeepsMiddle(s: string)
    ensures var r := Strip(s); var i := LeadingAngles(s);
      && i + |r| <= |s| && r == s[i..i + |r|]
      && (forall k :: 0 <= k < i ==> IsAngle(s[k]))
      && (forall k :: i + |r| <= k < |s| ==> IsAngle(s[k]))
      && (r != [] ==> !IsAngle(r[0]) && !IsAngle(r[|r| - 1]))
  {
    var i := LeadingAngles(s);
    var rest := s[i..];
    var r := Strip(s);
    assert forall k :: i + |r| <= k < |s| ==> s[k] == rest[k - i];
    if r != [] {
      assert r[0] == rest[0];
    }
  }

  /** Stripping twice is stripping once. */
  lemma StripIdempotent(s: string)
    ensures Strip(Strip(s)) == Strip(s)
  {
    var r := Strip(s);
    StripKeepsMiddle(s);
    assert LeadingAngles(r) == 0;
    assert r[0..] == r;
    assert TrailingAngles(r) == 0;
  }

  /** The URL test: `http://` or `https://` followed by at least one character other than a newline. */
  predicate IsUrl(q: string)
  {
    (|q| > 7 && q[..7] == "http://" && q[7] != '\n')
    || (|q| > 8 && q[..8] == "https://" && q[8] != '\n')
  }

  datatype QueryOutcome = BadArgument | Load(identifier: string)

  /**
   * The identifier `play` hands to the audio node: a URL as it is, otherwise the first
   * attachment's URL if the message has one, otherwise a search for the text.
   */
  function ShapeQuery(query: string, attachments: seq<string>): (r: QueryOutcome)
    ensures r == BadArgument <==> attachments == [] && Strip(query) == []
    ensures r.Load? && IsUrl(Strip(query)) ==> r.identifier == Strip(query)
    ensures r.Load? && !IsUrl(Strip(query)) && attachments != [] ==> r.identifier == attachments[0]
    ensures r.Load? && !IsUrl(Strip(query)) && attachments == [] ==> r.identifier == "ytsearch:" + Strip(query)
  {
    var q := Strip(query);
    if |attachments| == 0 && |q| == 0 then BadArgument
    else if !IsUrl(q) then
      if |attachments| > 0 then Load(attachments[0]) else Load("ytsearch:" + q)
    else Load(q)
  }

  /** A link pasted between angle brackets, to suppress its preview, is played as the link. */
  lemma BracketedUrlIsPlayed(url: string, attachments: seq<string>)
    requires IsUrl(url) && !IsAngle(url[|url| - 1])
    ensures ShapeQuery("<" + url + ">", attachments) == Load(url)
  {
    var s := "<" + url + ">";
    assert url[0] == url[..7][0] == 'h';
    assert s[1..] == url + ">";
    assert LeadingAngles(url + ">") == 0;
    assert LeadingAngles(s) == 1;
    var rest := s[1..];
    assert rest[..|rest| - 1] == url;
    assert TrailingAngles(url) == 0;
    assert TrailingAngles(rest) == 1;
  }

  /** Text that is not a link is searched for. */
  lemma TextIsSearched()
    ensures ShapeQuery("lofi", []) == Load("ytsearch:lofi")
  {
    assert LeadingAngles("lofi") == 0 && TrailingAngles("lofi") == 0;
    assert "lofi"[0..] == "lofi" && "lofi"[..4] == "lofi";
  }

  /** A scheme with nothing after it is not a link, so an attachment wins over it. */
  lemma BareSchemeIsNotUrl()
    ensures ShapeQuery("https://", ["a.mp3"]) == Load("a.mp3")
  {
    var q := "https://";
    assert LeadingAngles(q) == 0 && TrailingAngles(q) == 0;
    assert q[0..] == q && q[..8] == q;
    assert q[..7][4] == 's';
  }

  /** Nothing but brackets and no attachment is a bad argument. */
  lemma OnlyBracketsIsBadArgument()
    ensures ShapeQuery("<>", []) == BadArgument
  {
    assert "<>"[1..] == ">" && ">"[1..] == "";
    assert LeadingAngles("<>") == 2;
  }

  /* ---------------------------------------------------------------------------------------
   * The player
   * --------------------------------------------------------------------------------------- */

  datatype Track = Track(author: string, title: string)

  const MaxVolume := 1000

  datatype RemoveOutcome = EmptyQueue | BelowOne | BeyondEnd(length: nat) | Removed(track: Track)

  /** The remove checks, in order, and the track a valid position names. */
  function RemoveDecision(queue: seq<Track>, position: int): (r: RemoveOutcome)
    ensures r == EmptyQueue <==> queue == []
    ensures r == BelowOne <==> queue != [] && position < 1
    ensures r.BeyondEnd? <==> queue != [] && position > |queue|
    ensures r.BeyondEnd? ==> r.length == |queue|
    ensures r.Removed? <==> 1 <= position <= |queue|
    ensures r.Removed? ==> r.track == queue[position - 1]
  {
    if |queue| == 0 then EmptyQueue
    else if position < 1 then BelowOne
    else if position > |queue| then BeyondEnd(|queue|)
    else Removed(queue[position - 1])
  }

  /** The volume is accepted exactly from 1 to 1000. */
  predicate VolumeAccepted(volume: int)
  {
    !(volume <= 0 || volume > MaxVolume)
  }

  lemma VolumeBounds(volume: int)
    ensures VolumeAccepted(volume) <==> 1 <= volume <= 1000
  {
  }

  datatype DisconnectOutcome = NotConnected | NotInMyChannel | Disconnected

  /** The state of one guild's audio player the commands change. */
  class Player {
    var queue: seq<Track>
    var volume: int
    var channelId: Option<int>

    constructor ()
      ensures queue == [] && volume == 100 && channelId == None
    {
      queue := [];
      volume := 100;
      channelId := None;
    }

    /** `remove`: on a valid position, that track leaves the queue and the others keep their order. */
    method Remove(position: int) returns (r: RemoveOutcome)
      modifies this`queue
      ensures r == RemoveDecision(old(queue), position)
      ensures queue == if r.Removed? then Sequences.RemoveAt(old(queue), position - 1) else old(queue)
    {
      if |queue| == 0 {
        return EmptyQueue;
      }
      if position < 1 {
        return BelowOne;
      }
      if position > |queue| {
        return BeyondEnd(|queue|);
      }
      var track := queue[position - 1];
      queue := queue[..position - 1] + queue[position..];
      return Removed(track);
    }

    /** `volume`: the new volume if accepted, nothing otherwise. */
    method SetVolume(v: int) returns (accepted: bool)
      modifies this`volume
      ensures accepted <==> VolumeAccepted(v)
      ensures volume == if accepted then v else old(volume)
    {
      if v <= 0 || v > MaxVolume {
        return false;
      }
      volume := v;
      return true;
    }

    /**
     * `disconnect`: refused when the bot has no voice connection, or when the author is in no
     * voice channel or, the player being connected, in another one; otherwise the queue is
     * emptied and the player leaves its channel.
     */
    method Disconnect(hasVoiceClient: bool, authorChannel: Option<int>) returns (r: DisconnectOutcome)
      modifies this`queue, this`channelId
      ensures r == NotConnected <==> !hasVoiceClient
      ensures r == NotInMyChannel <==>
        hasVoiceClient && (authorChannel.None? || (old(channelId).Some? && authorChannel.value != old(channelId).value))
      ensures r == Disconnected ==> queue == [] && channelId == None
      ensures r != Disconnected ==> queue == old(queue) && channelId == old(channelId)
    {
      if !hasVoiceClient {
        return NotConnected;
      }
      if authorChannel.None? || (channelId.Some? && authorChannel.value != channelId.value) {
        return NotInMyChannel;
      }
      queue := [];
      channelId := None;
      return Disconnected;
    }
  }

  /** Removing and putting the track back where it was restores the queue. */
  lemma RemoveThenReinsert(queue: seq<Track>, position: int)
    requires RemoveDecision(queue, position).Removed?
    ensures var rest := Sequences.RemoveAt(queue, position - 1);
      rest[..position - 1] + [RemoveDecision(queue, position).track] + rest[position - 1..] == queue
  {
    var i := position - 1;
    var rest := Sequences.RemoveAt(queue, i);
    assert rest[..i] == queue[..i];
    assert rest[i..] == queue[i + 1..];
    assert queue == queue[..i] + [queue[i]] + queue[i + 1..];
  }

  /* ---------------------------------------------------------------------------------------
   * Queue pages
   * --------------------------------------------------------------------------------------- */

  const PerPage := 10

  /** The number of pages of a queue of `n` tracks. */
  function PageCount(n: nat): (r: nat)
    ensures r * PerPage >= n
    ensures r > 0 ==> (r - 1) * PerPage < n
  {
    (n + PerPage - 1) / PerPage
  }

  /** The tracks shown on page `page`, counted from 0. */
  function PageEntries(queue: seq<Track>, page: nat): (r: seq<Track>)
    requires page < PageCount(|queue|)
    ensures 1 <= |r| <= PerPage
    ensures forall i :: 0 <= i < |r| ==> page * PerPage + i < |queue| && r[i] == queue[page * PerPage + i]
  {
    var start := page * PerPage;
    var end := if start + PerPage < |queue| then start + PerPage else |queue|;
    queue[start..end]
  }

  /** The number shown before the `i`-th entry of page `page`. */
  function EntryNumber(page: nat, i: nat): int
  {
    page * PerPage + i + 1
  }

  /**
   * The number shown beside a track is its queue position: the number `remove` takes to remove
   * that very track.
   */
  lemma ShownNumberIsRemovePosition(queue: seq<Track>, page: nat, i: nat)
    requires page < PageCount(|queue|) && i < |PageEntries(queue, page)|
    ensures RemoveDecision(queue, EntryNumber(page, i)) == Removed(PageEntries(queue, page)[i])
  {
  }

  /** Every track of the queue is shown once, on page `j / 10`, under the number `j + 1`. */
  lemma {:induction false} EveryTrackIsShown(queue: seq<Track>, j: nat)
    requires j < |queue|
    ensures j / PerPage < PageCount(|queue|)
    ensures j % PerPage < |PageEntries(queue, j / PerPage)|
    ensures PageEntries(queue, j / PerPage)[j % PerPage] == queue[j]
    ensures EntryNumber(j / PerPage, j % PerPage) == j + 1
  {
    var page := j / PerPage;
    assert page * PerPage + j % PerPage == j;
    assert page * PerPage <= j;
  }
}
