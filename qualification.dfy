/**
 * Post-call qualification (`extractLeadDataFromTranscript`): the user and
 * assistant turns of a finished call are rendered into one transcript, a
 * requested callback time is looked for with three fixed patterns, and the
 * lead's interest level is chosen by a fixed keyword priority.
 *
 * The three patterns are matched by hand-written matchers that try the
 * alternatives in the order a backtracking regular-expression engine does,
 * from the leftmost start position on.
 */
module Qualification {
  import opened Types
  import opened Text

  // ---------------------------------------------------------------------
  // Transcript
  // ---------------------------------------------------------------------

  /** One turn of the provider's message list. */
  datatype Message = Message(role: string, text: string)

  predicate Spoken(m: Message) {
    m.role == "user" || m.role == "assistant"
  }

  function Render(m: Message): string {
    m.role + ": " + m.text
  }

  /** The rendered user and assistant turns, in call order. */
  function TranscriptLines(messages: seq<Message>): seq<string>
    decreases |messages|
  {
    if messages == [] then []
    else
      var rest := TranscriptLines(messages[..|messages| - 1]);
      var last := messages[|messages| - 1];
      if Spoken(last) then rest + [Render(last)] else rest
  }

  /** Empty exactly when no user or assistant turn was spoken. */
  function Transcript(messages: seq<Message>): (r: string)
    ensures r == "" <==> forall i :: 0 <= i < |messages| ==> !Spoken(messages[i])
  {
    TranscriptLinesEmpty(messages);
    JoinEmpty(TranscriptLines(messages), "\n");
    Join(TranscriptLines(messages), "\n")
  }

  /** The transcript has no lines exactly when nothing was spoken, and each line is non-empty. */
  lemma {:induction false} TranscriptLinesEmpty(messages: seq<Message>)
    ensures TranscriptLines(messages) == [] <==> forall i :: 0 <= i < |messages| ==> !Spoken(messages[i])
    ensures forall k :: 0 <= k < |TranscriptLines(messages)| ==> TranscriptLines(messages)[k] != ""
    decreases |messages|
  {
    if messages != [] {
      var init := messages[..|messages| - 1];
      TranscriptLinesEmpty(init);
      assert forall i :: 0 <= i < |init| ==> init[i] == messages[i];
      assert Render(messages[|messages| - 1]) != "" by {
        var m := messages[|messages| - 1];
        assert |Render(m)| == |m.role| + 2 + |m.text|;
      }
    }
  }

  /** Joining non-empty lines gives the empty text only for no lines. */
  lemma {:induction false} JoinEmpty(lines: seq<string>, sep: string)
    requires forall k :: 0 <= k < |lines| ==> lines[k] != ""
    ensures Join(lines, sep) == "" <==> lines == []
  {
    if |lines| >= 2 {
      assert |Join(lines, sep)| >= |lines[0]|;
    }
  }

  /** A system (or any other non-spoken) turn adds nothing to the transcript. */
  lemma TranscriptSkipsUnspoken(messages: seq<Message>, m: Message)
    requires !Spoken(m)
    ensures Transcript(messages + [m]) == Transcript(messages)
  {
    assert (messages + [m])[..|messages|] == messages;
  }

  /** A user or assistant turn is appended as `role: text` on a new line. */
  lemma TranscriptAppendsSpoken(messages: seq<Message>, m: Message)
    requires Spoken(m)
    ensures Transcript(messages + [m]) ==
            if TranscriptLines(messages) == [] then m.role + ": " + m.text
            else Transcript(messages) + "\n" + m.role + ": " + m.text
  {
    assert (messages + [m])[..|messages|] == messages;
    JoinSnoc(TranscriptLines(messages), Render(m), "\n");
  }

  /** A call with no user or assistant turn has an empty transcript. */
  lemma {:induction false} TranscriptOfUnspoken(messages: seq<Message>)
    requires forall i :: 0 <= i < |messages| ==> !Spoken(messages[i])
    ensures Transcript(messages) == ""
    decreases |messages|
  {
    if messages != [] {
      TranscriptOfUnspoken(messages[..|messages| - 1]);
    }
  }

  // ---------------------------------------------------------------------
  // Callback-time patterns
  // ---------------------------------------------------------------------

  /** JavaScript's `\s`. */
  predicate IsSpace(c: char) {
    var n := c as int;
    n == 0x20 || (0x09 <= n <= 0x0D) || n == 0xA0 || n == 0x1680
    || (0x2000 <= n <= 0x200A) || n == 0x2028 || n == 0x2029 || n == 0x202F
    || n == 0x205F || n == 0x3000 || n == 0xFEFF
  }

  /** How many whitespace characters start at `p`. */
  function SpaceRun(s: string, p: nat): (n: nat)
    ensures p <= |s| ==> p + n <= |s|
    ensures forall k :: p <= k < p + n ==> k < |s| && IsSpace(s[k])
    ensures p + n < |s| ==> !IsSpace(s[p + n])
    decreases |s| - p
  {
    if p < |s| && IsSpace(s[p]) then 1 + SpaceRun(s, p + 1) else 0
  }

  predicate AllBetween(ends: seq<nat>, lo: nat, hi: nat) {
    forall k :: 0 <= k < |ends| ==> lo <= ends[k] <= hi
  }

  /** Ends of `(?:am|pm)?` from `e`: with the suffix first, then without. */
  function AfterSpaces(s: string, e: nat): (ends: seq<nat>)
    requires e <= |s|
    ensures |ends| >= 1 && AllBetween(ends, e, |s|)
  {
    (if HasAt(s, e, "am") || HasAt(s, e, "pm") then [e + 2] else []) + [e]
  }

  /** Ends of `\s*(?:am|pm)?` when `\s*` may take at most `w` characters: longest first. */
  function SpacesDown(s: string, e: nat, w: nat): (ends: seq<nat>)
    requires e + w <= |s|
    ensures |ends| >= 1 && AllBetween(ends, e, |s|)
    decreases w
  {
    AfterSpaces(s, e + w) + (if w == 0 then [] else SpacesDown(s, e, w - 1))
  }

  /** Ends of `(?::\d{2})?\s*(?:am|pm)?` from `e`: with the minutes first. */
  function AfterHour(s: string, e: nat): (ends: seq<nat>)
    requires e <= |s|
    ensures |ends| >= 1 && AllBetween(ends, e, |s|)
  {
    var withMinutes :=
      if e + 2 < |s| && s[e] == ':' && IsDigit(s[e + 1]) && IsDigit(s[e + 2])
      then SpacesDown(s, e + 3, SpaceRun(s, e + 3))
      else [];
    withMinutes + SpacesDown(s, e, SpaceRun(s, e))
  }

  /**
   * Every end at which the time group `\d{1,2}(?::\d{2})?\s*(?:am|pm)?`
   * can stop when it starts at `p`, in the order a backtracking matcher
   * tries them (each quantifier greedy). The first is the greedy match.
   */
  function TimeEnds(s: string, p: nat): (ends: seq<nat>)
    ensures ends != [] <==> p < |s| && IsDigit(s[p])
    ensures AllBetween(ends, p + 1, |s|)
  {
    if p < |s| && IsDigit(s[p]) then
      (if p + 1 < |s| && IsDigit(s[p + 1]) then AfterHour(s, p + 2) else []) + AfterHour(s, p + 1)
    else []
  }

  /** A captured callback time: it starts with a digit and occurs in the text searched. */
  predicate TimeCapture(s: string, t: string) {
    |t| >= 1 && IsDigit(t[0]) && Contains(s, t)
  }

  lemma CaptureAt(s: string, p: nat, e: nat)
    requires p < e <= |s| && IsDigit(s[p])
    ensures TimeCapture(s, s[p..e])
  {
    assert HasAt(s, p, s[p..e]);
  }

  /** Nothing after the group: the greedy end is the match. */
  function GreedyTime(s: string, p: nat): (r: Option<string>)
    ensures r.Some? <==> p < |s| && IsDigit(s[p])
    ensures r.Some? ==> TimeCapture(s, r.value)
  {
    var ends := TimeEnds(s, p);
    if ends == [] then None
    else
      CaptureAt(s, p, ends[0]);
      Some(s[p..ends[0]])
  }

  /** Finding `w` at `i` also finds every prefix of `w` there. */
  lemma HasAtPrefix(s: string, i: int, w: string, n: nat)
    requires HasAt(s, i, w) && n <= |w|
    ensures HasAt(s, i, w[..n])
  {
    assert s[i..i + n] == s[i..i + |w|][..n];
  }

  /** A single digit directly followed by `am` or `pm` is captured with its suffix. */
  lemma OneDigitWithMeridiem(s: string, p: nat)
    requires p + 3 <= |s| && IsDigit(s[p])
    requires HasAt(s, p + 1, "am") || HasAt(s, p + 1, "pm")
    ensures GreedyTime(s, p) == Some(s[p..p + 3])
  {
    assert s[p + 1] == s[p + 1..p + 3][0];
    assert !IsDigit(s[p + 1]) && s[p + 1] != ':';
    assert SpaceRun(s, p + 1) == 0;
    assert AfterSpaces(s, p + 1)[0] == p + 3;
    assert SpacesDown(s, p + 1, 0) == AfterSpaces(s, p + 1);
    assert AfterHour(s, p + 1) == SpacesDown(s, p + 1, 0);
    assert TimeEnds(s, p) == AfterHour(s, p + 1);
  }

  /** `\s*` inside the group is greedy: a digit followed by one space keeps the space in the capture ("5 " from "at 5 ok"). */
  lemma OneDigitKeepsTrailingSpace(s: string, p: nat)
    requires p + 2 < |s| && IsDigit(s[p]) && s[p + 1] == ' '
    requires !IsSpace(s[p + 2]) && s[p + 2] != 'a' && s[p + 2] != 'p'
    ensures GreedyTime(s, p) == Some(s[p..p + 2])
  {
    assert !HasAt(s, p + 2, "am") && !HasAt(s, p + 2, "pm") by {
      if p + 4 <= |s| {
        assert s[p + 2..p + 4][0] == s[p + 2];
      }
    }
    assert !IsDigit(s[p + 1]) && s[p + 1] != ':';
    assert SpaceRun(s, p + 2) == 0;
    assert AfterSpaces(s, p + 2)[0] == p + 2;
    assert SpaceRun(s, p + 1) == 1;
    assert SpacesDown(s, p + 1, 1)[0] == p + 2;
    assert AfterHour(s, p + 1) == SpacesDown(s, p + 1, 1);
    assert TimeEnds(s, p) == AfterHour(s, p + 1);
  }

  /** The first present `f(j)` for `k <= j < n`, trying `j` upward. */
  function FirstSome<T>(f: nat -> Option<T>, k: nat, n: nat): Option<T>
    decreases n - k
  {
    if k >= n then None else if f(k).Some? then f(k) else FirstSome(f, k + 1, n)
  }

  /** `f` is absent at every index in `[k, j)`. */
  predicate NoneIn<T>(f: nat -> Option<T>, k: nat, j: nat) {
    forall m :: k <= m < j ==> f(m).None?
  }

  /** `FirstSome` yields `f` at the least index where it is present, and nothing exactly when it is present nowhere. */
  lemma {:induction false} FirstSomeIsLeast<T>(f: nat -> Option<T>, k: nat, n: nat)
    ensures FirstSome(f, k, n).None? <==> NoneIn(f, k, n)
    ensures FirstSome(f, k, n).Some? ==>
              exists j :: k <= j < n && FirstSome(f, k, n) == f(j) && f(j).Some? && NoneIn(f, k, j)
    decreases n - k
  {
    if k < n {
      FirstSomeIsLeast(f, k + 1, n);
      if f(k).Some? {
        assert NoneIn(f, k, k);
      } else if FirstSome(f, k + 1, n).Some? {
        var j :| k + 1 <= j < n && FirstSome(f, k + 1, n) == f(j) && f(j).Some? && NoneIn(f, k + 1, j);
        assert NoneIn(f, k, j);
      }
    }
  }

  /** `/tomorrow at (time)/` tried at position `i`. */
  function TomorrowAtAt(s: string, i: nat): (r: Option<string>)
    ensures r.Some? ==> HasAt(s, i, "tomorrow at ")
  {
    if HasAt(s, i, "tomorrow at ") then GreedyTime(s, i + 12) else None
  }

  /** `call (?:me )?(?:back )?at ` spelt out in the order the optional words are tried. */
  const CallBackLeads: seq<string> := ["call me back at ", "call me at ", "call back at ", "call at "]

  /** The time captured after lead-in `k` when that lead-in occurs at `i`. */
  function LeadTime(s: string, i: nat, k: nat): Option<string> {
    if k < |CallBackLeads| && HasAt(s, i, CallBackLeads[k]) then GreedyTime(s, i + |CallBackLeads[k]|) else None
  }

  /** `/call (?:me )?(?:back )?at (time)/` at position `i`, trying the lead-ins from index `k`. */
  function CallBackAtAt(s: string, i: nat, k: nat): (r: Option<string>)
    ensures r.Some? ==> TimeCapture(s, r.value)
    decreases |CallBackLeads| - k
  {
    if k >= |CallBackLeads| then None
    else
      var t := LeadTime(s, i, k);
      if t.Some? then t else CallBackAtAt(s, i, k + 1)
  }

  /** Lead-in `k` occurs at `i` and a time follows it. */
  predicate LeadFits(s: string, i: nat, k: nat)
    requires k < |CallBackLeads|
  {
    HasAt(s, i, CallBackLeads[k]) && GreedyTime(s, i + |CallBackLeads[k]|).Some?
  }

  /** No lead-in from `k` up to `j` fits. */
  predicate NoLeadFits(s: string, i: nat, k: nat, j: nat)
    requires j <= |CallBackLeads|
  {
    forall m :: k <= m < j ==> !LeadFits(s, i, m)
  }

  function LeadTimes(s: string, i: nat): nat -> Option<string> {
    (k: nat) => LeadTime(s, i, k)
  }

  /** Trying the lead-ins from `k` is a search for the first one with a time after it. */
  lemma {:induction false} CallBackAtAtIsFirstSome(s: string, i: nat, k: nat)
    ensures CallBackAtAt(s, i, k) == FirstSome(LeadTimes(s, i), k, |CallBackLeads|)
    decreases |CallBackLeads| - k
  {
    if k < |CallBackLeads| {
      CallBackAtAtIsFirstSome(s, i, k + 1);
    }
  }

  /** `NoLeadFits` is the absence of a lead-in time over the same range. */
  lemma NoLeadFitsIsNoneIn(s: string, i: nat, k: nat, j: nat)
    requires j <= |CallBackLeads|
    ensures NoLeadFits(s, i, k, j) <==> NoneIn(LeadTimes(s, i), k, j)
  {
    var f := LeadTimes(s, i);
    forall m | k <= m < j
      ensures f(m).None? <==> !LeadFits(s, i, m)
    {
    }
  }

  /**
   * The match at `i` is the time after the first lead-in, in the order the
   * optional words are tried, that occurs there with a time after it; there
   * is none exactly when no lead-in fits.
   */
  lemma CallBackAtAtFirstLead(s: string, i: nat, k: nat)
    requires k <= |CallBackLeads|
    ensures CallBackAtAt(s, i, k).None? <==> NoLeadFits(s, i, k, |CallBackLeads|)
    ensures CallBackAtAt(s, i, k).Some? ==>
              exists j :: k <= j < |CallBackLeads| && LeadFits(s, i, j) && NoLeadFits(s, i, k, j)
                          && CallBackAtAt(s, i, k) == GreedyTime(s, i + |CallBackLeads[j]|)
  {
    var f := LeadTimes(s, i);
    CallBackAtAtIsFirstSome(s, i, k);
    FirstSomeIsLeast(f, k, |CallBackLeads|);
    NoLeadFitsIsNoneIn(s, i, k, |CallBackLeads|);
    if CallBackAtAt(s, i, k).Some? {
      var j :| k <= j < |CallBackLeads| && FirstSome(f, k, |CallBackLeads|) == f(j) && f(j).Some? && NoneIn(f, k, j);
      NoLeadFitsIsNoneIn(s, i, k, j);
      assert f(j) == LeadTime(s, i, j);
    }
  }

  /** The full lead-in is tried first: "call me back at 5pm" yields `5pm`. */
  lemma CallMeBackAtFivePm(s: string, i: nat)
    requires HasAt(s, i, "call me back at 5pm")
    ensures CallBackAtAt(s, i, 0) == Some("5pm")
  {
    var w := "call me back at 5pm";
    HasAtPrefix(s, i, w, 16);
    assert w[..16] == CallBackLeads[0];
    assert s[i..i + 19] == w;
    assert s[i + 16..i + 19] == w[16..] by {
      assert s[i + 16..i + 19] == s[i..i + 19][16..];
    }
    assert w[16..] == "5pm";
    assert s[i + 16] == '5' && HasAt(s, i + 17, "pm") by {
      assert s[i + 16] == s[i + 16..i + 19][0];
      assert s[i + 17..i + 19] == s[i + 16..i + 19][1..];
    }
    OneDigitWithMeridiem(s, i + 16);
  }

  /** `\s*(?:ku|la)?\s*call pannunga` matches from `e`. */
  predicate PannungaTail(s: string, e: nat)
    requires e <= |s|
  {
    exists w | 0 <= w <= SpaceRun(s, e) :: ParticleAfterSpaces(s, e, w)
  }

  /** `(?:ku|la)?\s*call pannunga` after `w` spaces from `e`. */
  predicate ParticleAfterSpaces(s: string, e: nat, w: nat)
    requires e + w <= |s|
  {
    var p := e + w;
    ((HasAt(s, p, "ku") || HasAt(s, p, "la")) && p + 2 <= |s| && CallPannungaAfter(s, p + 2))
    || CallPannungaAfter(s, p)
  }

  /** `\s*call pannunga` from `p`. */
  predicate CallPannungaAfter(s: string, p: nat)
    requires p <= |s|
  {
    exists w | 0 <= w <= SpaceRun(s, p) :: CallPannungaAt(s, p, w)
  }

  predicate CallPannungaAt(s: string, p: nat, w: nat) {
    HasAt(s, p + w, "call pannunga")
  }

  /** The first end in `ends[k..]` after which the tail matches: the backtracking choice. */
  function FirstWithTail(s: string, ends: seq<nat>, k: nat): (r: Option<nat>)
    requires forall j :: 0 <= j < |ends| ==> ends[j] <= |s|
    ensures r.Some? ==> r.value in ends && r.value <= |s| && PannungaTail(s, r.value)
    decreases |ends| - k
  {
    if k >= |ends| then None
    else if PannungaTail(s, ends[k]) then Some(ends[k])
    else FirstWithTail(s, ends, k + 1)
  }

  /** No end in `ends[k..j]` admits the tail. */
  predicate NoTailIn(s: string, ends: seq<nat>, k: nat, j: nat)
    requires j <= |ends|
    requires forall m :: 0 <= m < |ends| ==> ends[m] <= |s|
  {
    forall m :: k <= m < j ==> !PannungaTail(s, ends[m])
  }

  function Tails(s: string, ends: seq<nat>): nat -> Option<nat> {
    (m: nat) => if m < |ends| && ends[m] <= |s| && PannungaTail(s, ends[m]) then Some(ends[m]) else None
  }

  /** Choosing the end is a search for the first one after which the tail matches. */
  lemma {:induction false} FirstWithTailIsFirstSome(s: string, ends: seq<nat>, k: nat)
    requires forall j :: 0 <= j < |ends| ==> ends[j] <= |s|
    ensures FirstWithTail(s, ends, k) == FirstSome(Tails(s, ends), k, |ends|)
    decreases |ends| - k
  {
    if k < |ends| {
      FirstWithTailIsFirstSome(s, ends, k + 1);
    }
  }

  /** `NoTailIn` is the absence of an admitting end over the same range. */
  lemma NoTailInIsNoneIn(s: string, ends: seq<nat>, k: nat, j: nat)
    requires j <= |ends|
    requires forall m :: 0 <= m < |ends| ==> ends[m] <= |s|
    ensures NoTailIn(s, ends, k, j) <==> NoneIn(Tails(s, ends), k, j)
  {
    var f := Tails(s, ends);
    forall m | k <= m < j
      ensures f(m).None? <==> !PannungaTail(s, ends[m])
    {
    }
  }

  /** The chosen end is the first from `k` after which the tail matches; none is chosen exactly when none admits it. */
  lemma FirstWithTailIsFirst(s: string, ends: seq<nat>, k: nat)
    requires forall j :: 0 <= j < |ends| ==> ends[j] <= |s|
    ensures FirstWithTail(s, ends, k).None? <==> NoTailIn(s, ends, k, |ends|)
    ensures FirstWithTail(s, ends, k).Some? ==>
              exists j :: k <= j < |ends| && FirstWithTail(s, ends, k) == Some(ends[j])
                          && PannungaTail(s, ends[j]) && NoTailIn(s, ends, k, j)
  {
    var f := Tails(s, ends);
    FirstWithTailIsFirstSome(s, ends, k);
    FirstSomeIsLeast(f, k, |ends|);
    NoTailInIsNoneIn(s, ends, k, |ends|);
    if FirstWithTail(s, ends, k).Some? {
      var j :| k <= j < |ends| && FirstSome(f, k, |ends|) == f(j) && f(j).Some? && NoneIn(f, k, j);
      NoTailInIsNoneIn(s, ends, k, j);
    }
  }

  /** `/(time)\s*(?:ku|la)?\s*call pannunga/` tried at position `i`. */
  function PannungaAt(s: string, i: nat): (r: Option<string>)
    ensures r.Some? ==> TimeCapture(s, r.value)
  {
    var ends := TimeEnds(s, i);
    match FirstWithTail(s, ends, 0)
    case None => None
    case Some(e) =>
      CaptureAt(s, i, e);
      Some(s[i..e])
  }

  datatype SchedulePattern = TomorrowAt | CallBackAt | CallPannunga

  /** The capture of `pattern` when tried at position `i`. */
  function MatchAt(pattern: SchedulePattern, s: string, i: nat): (r: Option<string>)
    ensures r.Some? ==> TimeCapture(s, r.value)
  {
    match pattern
    case TomorrowAt => TomorrowAtAt(s, i)
    case CallBackAt => CallBackAtAt(s, i, 0)
    case CallPannunga => PannungaAt(s, i)
  }

  /** `s.match(pattern)[1]`: the capture at the leftmost start position from `i` on. */
  function FindFrom(pattern: SchedulePattern, s: string, i: nat): (r: Option<string>)
    ensures r.Some? ==> TimeCapture(s, r.value)
    decreases |s| + 1 - i
  {
    if i > |s| then None
    else
      var m := MatchAt(pattern, s, i);
      if m.Some? then m else FindFrom(pattern, s, i + 1)
  }

  function Find(pattern: SchedulePattern, s: string): (r: Option<string>)
    ensures r.Some? ==> TimeCapture(s, r.value)
  {
    FindFrom(pattern, s, 0)
  }

  /** `pattern` matches at no start in `[i, j)`. */
  predicate NoMatchIn(pattern: SchedulePattern, s: string, i: nat, j: nat) {
    forall m :: i <= m < j ==> MatchAt(pattern, s, m).None?
  }

  function Matcher(pattern: SchedulePattern, s: string): nat -> Option<string> {
    (j: nat) => MatchAt(pattern, s, j)
  }

  /** Scanning from `i` is a search for the first start position where the pattern matches. */
  lemma {:induction false} FindFromIsFirstSome(pattern: SchedulePattern, s: string, i: nat)
    ensures FindFrom(pattern, s, i) == FirstSome(Matcher(pattern, s), i, |s| + 1)
    decreases |s| + 1 - i
  {
    if i <= |s| {
      FindFromIsFirstSome(pattern, s, i + 1);
    }
  }

  /** `NoMatchIn` is the absence of a match over the same range of starts. */
  lemma NoMatchInIsNoneIn(pattern: SchedulePattern, s: string, i: nat, j: nat)
    ensures NoMatchIn(pattern, s, i, j) <==> NoneIn(Matcher(pattern, s), i, j)
  {
    var f := Matcher(pattern, s);
    forall m | i <= m < j
      ensures f(m) == MatchAt(pattern, s, m)
    {
    }
  }

  /**
   * The search returns the capture at the leftmost start from `i` where the
   * pattern matches, and nothing exactly when it matches nowhere from `i` on.
   */
  lemma FindFromLeftmost(pattern: SchedulePattern, s: string, i: nat)
    ensures FindFrom(pattern, s, i).None? <==> NoMatchIn(pattern, s, i, |s| + 1)
    ensures FindFrom(pattern, s, i).Some? ==>
              exists j :: i <= j <= |s| && FindFrom(pattern, s, i) == MatchAt(pattern, s, j)
                          && NoMatchIn(pattern, s, i, j)
  {
    var f := Matcher(pattern, s);
    FindFromIsFirstSome(pattern, s, i);
    FirstSomeIsLeast(f, i, |s| + 1);
    NoMatchInIsNoneIn(pattern, s, i, |s| + 1);
    if FindFrom(pattern, s, i).Some? {
      var j :| i <= j < |s| + 1 && FirstSome(f, i, |s| + 1) == f(j) && f(j).Some? && NoneIn(f, i, j);
      NoMatchInIsNoneIn(pattern, s, i, j);
      assert f(j) == MatchAt(pattern, s, j);
    }
  }

  lemma FindLeftmost(pattern: SchedulePattern, s: string)
    ensures Find(pattern, s).None? <==> NoMatchIn(pattern, s, 0, |s| + 1)
    ensures Find(pattern, s).Some? ==>
              exists j :: 0 <= j <= |s| && Find(pattern, s) == MatchAt(pattern, s, j) && NoMatchIn(pattern, s, 0, j)
  {
    FindFromLeftmost(pattern, s, 0);
  }

  /** The patterns in the order they are tried. */
  const SchedulePatterns: seq<SchedulePattern> := [TomorrowAt, CallBackAt, CallPannunga]

  /** The capture of the first pattern that matches. */
  function FirstSchedule(s: string): (r: Option<string>)
    ensures r.Some? ==> TimeCapture(s, r.value)
    ensures r.Some? ==> exists k :: 0 <= k < |SchedulePatterns| && Find(SchedulePatterns[k], s) == r
    ensures r.None? ==> forall k :: 0 <= k < |SchedulePatterns| ==> Find(SchedulePatterns[k], s).None?
  {
    var a := Find(TomorrowAt, s);
    assert Find(SchedulePatterns[0], s) == a;
    assert Find(SchedulePatterns[1], s) == Find(CallBackAt, s);
    assert Find(SchedulePatterns[2], s) == Find(CallPannunga, s);
    if a.Some? then a
    else
      var b := Find(CallBackAt, s);
      if b.Some? then b else Find(CallPannunga, s)
  }

  /** Trying the patterns in order and stopping at the first match yields `FirstSchedule`. */
  lemma FirstScheduleInOrder(s: string, k: nat)
    requires k <= |SchedulePatterns|
    requires forall j :: 0 <= j < k ==> Find(SchedulePatterns[j], s).None?
    ensures k < |SchedulePatterns| && Find(SchedulePatterns[k], s).Some? ==>
              FirstSchedule(s) == Find(SchedulePatterns[k], s)
    ensures k == |SchedulePatterns| ==> FirstSchedule(s).None?
  {
    if k >= 1 { assert Find(SchedulePatterns[0], s).None?; }
    if k >= 2 { assert Find(SchedulePatterns[1], s).None?; }
    if k >= 3 { assert Find(SchedulePatterns[2], s).None?; }
  }

  // ---------------------------------------------------------------------
  // Classification
  // ---------------------------------------------------------------------

  const HighInterestKeywords: seq<string> := [
    "very interested", "definitely", "sign me up", "let's do it",
    "schedule", "appointment", "meeting", "tomorrow", "next week",
    "call me back", "send details", "whatsapp",
    "seri", "ok pa", "sure", "romba nalla iruku", "interested ah irukken"]

  const ModerateInterestKeywords: seq<string> := [
    "interested", "tell me more", "sounds good", "maybe", "possibly",
    "how much", "price", "cost", "what is the rate",
    "sollunga", "konjam yosikaren", "pakalaam"]

  const NegativeKeywords: seq<string> := [
    "not interested", "no thanks", "busy", "don't call", "stop calling",
    "wrong number", "remove my number", "do not call",
    "venda", "time illa", "busy ah irukken", "call panna vendaam"]

  /** Transcripts longer than this count as a real conversation. */
  const ConversationLength: nat := 100

  datatype InterestLevel = Unknown | NotInterested | Interested | Contacted

  /** The result record; `scheduledTime` is `None` for the source's `null`. */
  datatype Extraction = Extraction(
    transcript: string,
    interestLevel: InterestLevel,
    notes: string,
    followUpRequired: bool,
    scheduledTime: Option<string>)

  /** Which branch of the interest if-chain a transcript takes. */
  datatype Signal = Negative | HighInterest | ModerateInterest | LongConversation | BriefCall

  function SignalOf(lower: string, length: nat): Signal {
    if ContainsAny(lower, NegativeKeywords) then Negative
    else if ContainsAny(lower, HighInterestKeywords) then HighInterest
    else if ContainsAny(lower, ModerateInterestKeywords) then ModerateInterest
    else if length > ConversationLength then LongConversation
    else BriefCall
  }

  function LevelOf(signal: Signal): InterestLevel {
    match signal
    case Negative => InterestLevel.NotInterested
    case HighInterest | ModerateInterest => InterestLevel.Interested
    case LongConversation | BriefCall => InterestLevel.Contacted
  }

  function DefaultNote(signal: Signal): string {
    match signal
    case Negative => "Lead declined or asked not to be called"
    case HighInterest => "High interest - schedule follow-up"
    case ModerateInterest => "Moderate interest - may need nurturing"
    case LongConversation => "Call completed - needs review"
    case BriefCall => "Brief call - may have been missed/busy"
  }

  function CallbackNote(time: string): string {
    "Callback requested: " + time
  }

  /**
   * What qualification yields for a message list: the callback note, when
   * a pattern matched, takes precedence over the branch's default note,
   * and follow-up is required after a callback request or a high-interest
   * keyword.
   */
  function Qualify(messages: seq<Message>): (r: Extraction)
    ensures r.transcript == Transcript(messages)
    ensures r.interestLevel != Unknown
    ensures r.notes != ""
  {
    var t := Transcript(messages);
    var lower := Lower(t);
    var schedule := FirstSchedule(lower);
    var signal := SignalOf(lower, |t|);
    Extraction(
      t,
      LevelOf(signal),
      if schedule.Some? then CallbackNote(schedule.value) else DefaultNote(signal),
      schedule.Some? || signal == HighInterest,
      schedule)
  }

  /** `extractLeadDataFromTranscript`: fills the result record field by field. */
  method ExtractLeadDataFromTranscript(messages: seq<Message>) returns (extracted: Extraction)
    ensures extracted == Qualify(messages)
  {
    var transcript := Transcript(messages);
    extracted := Extraction(transcript, Unknown, "", false, None);
    var lowerTranscript := Lower(transcript);

    var k := 0;
    while k < |SchedulePatterns|
      invariant 0 <= k <= |SchedulePatterns|
      invariant extracted == Extraction(transcript, Unknown, "", false, None)
      invariant forall j :: 0 <= j < k ==> Find(SchedulePatterns[j], lowerTranscript).None?
    {
      var match1 := Find(SchedulePatterns[k], lowerTranscript);
      if match1.Some? {
        FirstScheduleInOrder(lowerTranscript, k);
        extracted := extracted.(
          scheduledTime := match1,
          followUpRequired := true,
          notes := CallbackNote(match1.value));
        break;
      }
      k := k + 1;
    }
    if k == |SchedulePatterns| {
      FirstScheduleInOrder(lowerTranscript, k);
    }
    ghost var schedule := FirstSchedule(lowerTranscript);
    ghost var signal := SignalOf(lowerTranscript, |transcript|);
    assert extracted == Extraction(transcript, Unknown, if schedule.Some? then CallbackNote(schedule.value) else "",
                                   schedule.Some?, schedule);
    assert Qualify(messages) == Extraction(transcript, LevelOf(signal),
      if schedule.Some? then CallbackNote(schedule.value) else DefaultNote(signal),
      schedule.Some? || signal == HighInterest, schedule);

    if ContainsAny(lowerTranscript, NegativeKeywords) {
      extracted := extracted.(
        interestLevel := InterestLevel.NotInterested,
        notes := if extracted.notes != "" then extracted.notes else "Lead declined or asked not to be called");
    } else if ContainsAny(lowerTranscript, HighInterestKeywords) {
      extracted := extracted.(
        interestLevel := InterestLevel.Interested,
        followUpRequired := true,
        notes := if extracted.notes != "" then extracted.notes else "High interest - schedule follow-up");
    } else if ContainsAny(lowerTranscript, ModerateInterestKeywords) {
      extracted := extracted.(
        interestLevel := InterestLevel.Interested,
        notes := if extracted.notes != "" then extracted.notes else "Moderate interest - may need nurturing");
    } else if |transcript| > ConversationLength {
      extracted := extracted.(
        interestLevel := InterestLevel.Contacted,
        notes := if extracted.notes != "" then extracted.notes else "Call completed - needs review");
    } else {
      extracted := extracted.(
        interestLevel := InterestLevel.Contacted,
        notes := if extracted.notes != "" then extracted.notes else "Brief call - may have been missed/busy");
    }
  }

  // ---------------------------------------------------------------------
  // Properties of qualification
  // ---------------------------------------------------------------------

  /** A match found from `i` on is the match at some position at or after `i`. */
  lemma {:induction false} FindFromWitness(pattern: SchedulePattern, s: string, i: nat)
    requires FindFrom(pattern, s, i).Some?
    ensures exists j | i <= j <= |s| :: MatchAt(pattern, s, j) == FindFrom(pattern, s, i)
    decreases |s| + 1 - i
  {
    if MatchAt(pattern, s, i).None? {
      FindFromWitness(pattern, s, i + 1);
    }
  }

  /** A found callback time starts with a digit and is a piece of the lower-cased transcript. */
  lemma ScheduledTimeOccurs(messages: seq<Message>)
    ensures var r := Qualify(messages);
            r.scheduledTime.Some? ==> TimeCapture(Lower(r.transcript), r.scheduledTime.value)
  {
  }

  /** A negative keyword decides the outcome, whatever high- or moderate-interest words also occur. */
  lemma NegativeKeywordWins(messages: seq<Message>)
    requires ContainsAny(Lower(Transcript(messages)), NegativeKeywords)
    ensures Qualify(messages).interestLevel == InterestLevel.NotInterested
  {
  }

  /** A high-interest keyword without a negative one means interested and always requires follow-up. */
  lemma HighInterestRequiresFollowUp(messages: seq<Message>)
    requires var lower := Lower(Transcript(messages));
             !ContainsAny(lower, NegativeKeywords) && ContainsAny(lower, HighInterestKeywords)
    ensures Qualify(messages).interestLevel == InterestLevel.Interested
    ensures Qualify(messages).followUpRequired
  {
  }

  /** A moderate-interest keyword alone means interested; follow-up is then required only after a callback request. */
  lemma ModerateInterestLeavesFollowUp(messages: seq<Message>)
    requires var lower := Lower(Transcript(messages));
             && !ContainsAny(lower, NegativeKeywords) && !ContainsAny(lower, HighInterestKeywords)
             && ContainsAny(lower, ModerateInterestKeywords)
    ensures Qualify(messages).interestLevel == InterestLevel.Interested
    ensures Qualify(messages).followUpRequired == FirstSchedule(Lower(Transcript(messages))).Some?
  {
  }

  /** The first matching pattern's capture becomes the scheduled time and the note, whatever the interest level. */
  lemma CallbackRequestRecorded(messages: seq<Message>, time: string)
    requires FirstSchedule(Lower(Transcript(messages))) == Some(time)
    ensures Qualify(messages).scheduledTime == Some(time)
    ensures Qualify(messages).followUpRequired
    ensures Qualify(messages).notes == "Callback requested: " + time
  {
  }

  /** Without keywords or callback request, the call only counts as contacted, and the note depends on the length. */
  lemma NoSignalMeansContacted(messages: seq<Message>)
    requires var lower := Lower(Transcript(messages));
             && !ContainsAny(lower, NegativeKeywords) && !ContainsAny(lower, HighInterestKeywords)
             && !ContainsAny(lower, ModerateInterestKeywords) && FirstSchedule(lower).None?
    ensures var r := Qualify(messages);
            && r.interestLevel == InterestLevel.Contacted
            && !r.followUpRequired
            && r.scheduledTime.None?
            && r.notes == if |r.transcript| > 100 then "Call completed - needs review"
                          else "Brief call - may have been missed/busy"
  {
  }

  /** No pattern matches the empty text. */
  lemma NothingScheduledInEmpty()
    ensures FirstSchedule("").None?
  {
    assert FindFrom(TomorrowAt, "", 1).None?;
    assert FindFrom(CallBackAt, "", 1).None?;
    assert FindFrom(CallPannunga, "", 1).None?;
  }

  lemma NoKeywordInEmpty(words: seq<string>)
    requires forall k :: 0 <= k < |words| ==> words[k] != ""
    ensures !ContainsAny("", words)
  {
  }

  /** A call without user or assistant turns (an empty message list included) is a brief call with nothing scheduled. */
  lemma SilentCallIsBrief(messages: seq<Message>)
    requires forall i :: 0 <= i < |messages| ==> !Spoken(messages[i])
    ensures Qualify(messages) ==
            Extraction("", InterestLevel.Contacted, "Brief call - may have been missed/busy", false, None)
  {
    TranscriptOfUnspoken(messages);
    assert Lower("") == "";
    NothingScheduledInEmpty();
    NoKeywordInEmpty(NegativeKeywords);
    NoKeywordInEmpty(HighInterestKeywords);
    NoKeywordInEmpty(ModerateInterestKeywords);
  }

  /** A "tomorrow at" match leaves the word `tomorrow` in the searched text. */
  lemma TomorrowMatchMentionsTomorrow(s: string)
    requires Find(TomorrowAt, s).Some?
    ensures Contains(s, "tomorrow")
  {
    FindFromWitness(TomorrowAt, s, 0);
    var j :| 0 <= j <= |s| && MatchAt(TomorrowAt, s, j).Some?;
    TomorrowAtMentions(s, j);
  }

  /** The lead-in of a "tomorrow at" match starts with the word `tomorrow`. */
  lemma TomorrowAtMentions(s: string, j: nat)
    requires HasAt(s, j, "tomorrow at ")
    ensures Contains(s, "tomorrow")
  {
    HasAtPrefix(s, j, "tomorrow at ", 8);
    assert "tomorrow at "[..8] == "tomorrow";
    ContainsAt(s, j, "tomorrow");
  }

  /** `tomorrow` is itself a high-interest keyword, so a "tomorrow at" request always ends interested or declined, with follow-up. */
  lemma TomorrowRequestIsNeverMerelyContacted(messages: seq<Message>)
    requires Find(TomorrowAt, Lower(Transcript(messages))).Some?
    ensures Qualify(messages).interestLevel in {InterestLevel.NotInterested, InterestLevel.Interested}
    ensures Qualify(messages).followUpRequired
  {
    var lower := Lower(Transcript(messages));
    TomorrowMatchMentionsTomorrow(lower);
    assert HighInterestKeywords[7] == "tomorrow";
    assert ContainsAny(lower, HighInterestKeywords);
  }
}
