/**
 * The call-history screen's helpers: `HH:MM:SS` durations, shortened ids,
 * the search filter, grouping by date label, and the pagination figures.
 * The date label of a call depends on the clock and the locale, so it is
 * a parameter.
 */
module CallHistory {
  import opened Types
  import opened Text

  // ---------------------------------------------------------------------
  // Durations
  // ---------------------------------------------------------------------

  /** Hours, minutes and seconds of a duration in seconds. */
  datatype Clock = Clock(hours: nat, minutes: nat, seconds: nat)

  function SplitDuration(total: nat): (c: Clock)
    ensures c.hours * 3600 + c.minutes * 60 + c.seconds == total
    ensures c.minutes < 60 && c.seconds < 60
  {
    var hours, rest := total / 3600, total % 3600;
    assert total == hours * 3600 + rest;
    assert rest == (rest / 60) * 60 + rest % 60;
    assert total == (hours * 60 + rest / 60) * 60 + rest % 60;
    assert total % 60 == rest % 60;
    Clock(hours, rest / 60, total % 60)
  }

  /** `formatDuration`: each part rendered in decimal, padded to two digits, joined by `:`. */
  function FormatDuration(total: nat): (r: string)
    ensures |r| >= 8 && r[|r| - 6] == ':' && r[|r| - 3] == ':'
    ensures AllDigits(r[|r| - 5..|r| - 3]) && AllDigits(r[|r| - 2..])
  {
    var c := SplitDuration(total);
    TwoDigits(c.minutes);
    TwoDigits(c.seconds);
    PadStart2(NatToString(c.hours)) + ":" + PadStart2(NatToString(c.minutes)) + ":" + PadStart2(NatToString(c.seconds))
  }

  /** A part below 100 renders as exactly two digits that read back as the part. */
  lemma TwoDigits(n: nat)
    requires n < 100
    ensures var p := PadStart2(NatToString(n));
            |p| == 2 && AllDigits(p) && ParseNat(p) == n
  {
    NatToStringLength(n);
    ParseNatToString(n);
    if n < 10 {
      ParseNatLeadingZero(NatToString(n));
    }
  }

  /** The `HH:MM:SS` shape. */
  predicate IsClockText(s: string) {
    |s| == 8 && s[2] == ':' && s[5] == ':'
    && AllDigits(s[0..2]) && AllDigits(s[3..5]) && AllDigits(s[6..8])
  }

  /** The seconds an `HH:MM:SS` text stands for. */
  function ParseDuration(s: string): nat
    requires IsClockText(s)
  {
    ParseNat(s[0..2]) * 3600 + ParseNat(s[3..5]) * 60 + ParseNat(s[6..8])
  }

  /** Below 100 hours the text is exactly `HH:MM:SS` and reads back as the duration. */
  lemma {:induction false} FormatDurationRoundTrip(total: nat)
    requires total < 360000
    ensures IsClockText(FormatDuration(total))
    ensures ParseDuration(FormatDuration(total)) == total
  {
    var c := SplitDuration(total);
    assert c.hours < 100;
    TwoDigits(c.hours);
    TwoDigits(c.minutes);
    TwoDigits(c.seconds);
    var h, m, s := PadStart2(NatToString(c.hours)), PadStart2(NatToString(c.minutes)), PadStart2(NatToString(c.seconds));
    var r := FormatDuration(total);
    assert r == h + ":" + m + ":" + s;
    assert r[0..2] == h && r[3..5] == m && r[6..8] == s;
  }

  /** From 100 hours on, the hours take three or more digits and the text grows past eight characters. */
  lemma LongDurationsWiden(total: nat)
    requires total >= 360000
    ensures |FormatDuration(total)| > 8
  {
    var c := SplitDuration(total);
    NatToStringLength(c.hours);
  }

  // ---------------------------------------------------------------------
  // Ids
  // ---------------------------------------------------------------------

  const ShownIdLength: nat := 8

  /** `truncateId`: ids longer than eight characters keep their first eight and gain `...`. */
  function TruncateId(id: string): (r: string)
    ensures |r| <= ShownIdLength + 3
    ensures |id| <= ShownIdLength ==> r == id
    ensures |id| > ShownIdLength ==> StartsWith(r, id[..ShownIdLength]) && |r| == ShownIdLength + 3
    ensures |id| > ShownIdLength ==> r == id[..ShownIdLength] + "..."
  {
    if |id| > ShownIdLength then id[..ShownIdLength] + "..." else id
  }

  /** Shortening a shortened id changes nothing. */
  lemma TruncateIdIdempotent(id: string)
    ensures TruncateId(TruncateId(id)) == TruncateId(id)
  {
    if |id| > ShownIdLength {
      var r := TruncateId(id);
      assert r[..ShownIdLength] == id[..ShownIdLength];
    }
  }

  /** `r` shows `full`: all of it when short, else its first eight characters. */
  predicate ShownFrom(full: string, r: string) {
    if |full| <= ShownIdLength then r == full else StartsWith(r, full[..ShownIdLength])
  }

  /** The id shown in a row: the provider's call id, else the row id. */
  function ShownId(call: CallHistoryItem): (r: string)
    ensures |r| <= ShownIdLength + 3
    ensures call.ultravoxCallId.Some? && call.ultravoxCallId.value != "" ==>
              ShownFrom(call.ultravoxCallId.value, r)
    ensures call.ultravoxCallId.None? || call.ultravoxCallId.value == "" ==> ShownFrom(call.id, r)
  {
    TruncateId(if call.ultravoxCallId.Some? && call.ultravoxCallId.value != "" then call.ultravoxCallId.value else call.id)
  }

  // ---------------------------------------------------------------------
  // Search
  // ---------------------------------------------------------------------

  /** An optional field contains the lower-cased term, case-insensitively. */
  predicate FieldHas(field: Option<string>, search: string) {
    field.Some? && Contains(Lower(field.value), search)
  }

  /** The search predicate: an empty term keeps every call. */
  predicate Matches(call: CallHistoryItem, term: string)
    ensures term == "" ==> Matches(call, term)
    ensures Matches(call, term) && term != "" ==>
              call.summary.Some? || call.ultravoxCallId.Some? || call.leadName.Some? || call.leadBusiness.Some?
  {
    term == "" ||
    var search := Lower(term);
    FieldHas(call.summary, search) || FieldHas(call.ultravoxCallId, search)
    || FieldHas(call.leadName, search) || FieldHas(call.leadBusiness, search)
  }

  /** The matching calls, in their original order. */
  function FilterCalls(calls: seq<CallHistoryItem>, term: string): (r: seq<CallHistoryItem>)
    ensures |r| <= |calls|
    ensures forall c :: c in r <==> c in calls && Matches(c, term)
    decreases |calls|
  {
    if calls == [] then []
    else (if Matches(calls[0], term) then [calls[0]] else []) + FilterCalls(calls[1..], term)
  }

  /** Filtering keeps order and multiplicity: it distributes over concatenation. */
  lemma {:induction false} FilterCallsAppend(xs: seq<CallHistoryItem>, ys: seq<CallHistoryItem>, term: string)
    ensures FilterCalls(xs + ys, term) == FilterCalls(xs, term) + FilterCalls(ys, term)
    decreases |xs|
  {
    if xs == [] {
      assert xs + ys == ys;
    } else {
      var head: seq<CallHistoryItem> := if Matches(xs[0], term) then [xs[0]] else [];
      assert (xs + ys)[0] == xs[0];
      assert (xs + ys)[1..] == xs[1..] + ys;
      calc {
        FilterCalls(xs + ys, term);
        head + FilterCalls(xs[1..] + ys, term);
        { FilterCallsAppend(xs[1..], ys, term); }
        head + (FilterCalls(xs[1..], term) + FilterCalls(ys, term));
        (head + FilterCalls(xs[1..], term)) + FilterCalls(ys, term);
      }
    }
  }

  /** An empty search keeps the list as it is. */
  lemma {:induction false} EmptySearchKeepsAll(calls: seq<CallHistoryItem>)
    ensures FilterCalls(calls, "") == calls
    decreases |calls|
  {
    if calls != [] {
      EmptySearchKeepsAll(calls[1..]);
      assert [calls[0]] + calls[1..] == calls;
    }
  }

  // ---------------------------------------------------------------------
  // Grouping
  // ---------------------------------------------------------------------

  /** The calls carrying `l`, in list order. */
  function Members(calls: seq<CallHistoryItem>, labelOf: CallHistoryItem -> string, l: string): seq<CallHistoryItem>
    decreases |calls|
  {
    if calls == [] then []
    else Members(calls[..|calls| - 1], labelOf, l) + (if labelOf(calls[|calls| - 1]) == l then [calls[|calls| - 1]] else [])
  }

  /** The labels in order of first appearance. */
  function FirstSeen(calls: seq<CallHistoryItem>, labelOf: CallHistoryItem -> string): seq<string>
    decreases |calls|
  {
    if calls == [] then []
    else
      var keys := FirstSeen(calls[..|calls| - 1], labelOf);
      var l := labelOf(calls[|calls| - 1]);
      if l in keys then keys else keys + [l]
  }

  /** The first-seen labels are exactly the labels of the calls, each once. */
  lemma {:induction false} FirstSeenLabels(calls: seq<CallHistoryItem>, labelOf: CallHistoryItem -> string)
    ensures Distinct(FirstSeen(calls, labelOf))
    ensures forall l :: l in FirstSeen(calls, labelOf) <==> exists c :: c in calls && labelOf(c) == l
    decreases |calls|
  {
    if calls != [] {
      var prefix := calls[..|calls| - 1];
      var x := calls[|calls| - 1];
      FirstSeenLabels(prefix, labelOf);
      assert forall c :: c in calls <==> c in prefix || c == x;
    }
  }

  /** No label occurs twice. */
  predicate Distinct(keys: seq<string>) {
    forall i, j :: 0 <= i < j < |keys| ==> keys[i] != keys[j]
  }

  /** How many calls the groups of `keys` hold together. */
  function Total(keys: seq<string>, groups: map<string, seq<CallHistoryItem>>): nat
    decreases |keys|
  {
    if keys == [] then 0
    else
      var last := keys[|keys| - 1];
      Total(keys[..|keys| - 1], groups) + (if last in groups then |groups[last]| else 0)
  }

  /** Adding one call to an existing group adds one to the total. */
  lemma {:induction false} TotalGrows(keys: seq<string>, groups: map<string, seq<CallHistoryItem>>, l: string, c: CallHistoryItem)
    requires Distinct(keys) && l in keys && l in groups
    ensures Total(keys, groups[l := groups[l] + [c]]) == Total(keys, groups) + 1
    decreases |keys|
  {
    var prefix := keys[..|keys| - 1];
    var last := keys[|keys| - 1];
    if last == l {
      assert l !in prefix;
      TotalIgnores(prefix, groups, l, groups[l] + [c]);
    } else {
      TotalGrows(prefix, groups, l, c);
    }
  }

  /** The total over `keys` does not see a group whose label is not among them. */
  lemma {:induction false} TotalIgnores(keys: seq<string>, groups: map<string, seq<CallHistoryItem>>, l: string, g: seq<CallHistoryItem>)
    requires l !in keys
    ensures Total(keys, groups[l := g]) == Total(keys, groups)
    decreases |keys|
  {
    if keys != [] {
      TotalIgnores(keys[..|keys| - 1], groups, l, g);
    }
  }

  /** A group opened under a new label adds its size to the total. */
  lemma {:induction false} OpenGroupTotal(keys: seq<string>, groups: map<string, seq<CallHistoryItem>>, l: string, g: seq<CallHistoryItem>)
    requires l !in keys
    ensures Total(keys + [l], groups[l := g]) == Total(keys, groups) + |g|
  {
    TotalIgnores(keys, groups, l, g);
    assert (keys + [l])[..|keys|] == keys;
  }

  /** The loop's view of one more call. */
  lemma Snoc(xs: seq<CallHistoryItem>, x: CallHistoryItem, labelOf: CallHistoryItem -> string)
    ensures FirstSeen(xs + [x], labelOf) ==
              if labelOf(x) in FirstSeen(xs, labelOf) then FirstSeen(xs, labelOf) else FirstSeen(xs, labelOf) + [labelOf(x)]
    ensures forall k :: Members(xs + [x], labelOf, k) == Members(xs, labelOf, k) + (if labelOf(x) == k then [x] else [])
  {
    assert (xs + [x])[..|xs|] == xs;
  }

  /** `keys` and `groups` are the grouping of `calls` by label. */
  ghost predicate Grouped(calls: seq<CallHistoryItem>, labelOf: CallHistoryItem -> string,
                    keys: seq<string>, groups: map<string, seq<CallHistoryItem>>)
  {
    && keys == FirstSeen(calls, labelOf) && Distinct(keys)
    && (forall l :: l in groups <==> l in keys)
    && (forall l :: l in groups ==> groups[l] == Members(calls, labelOf, l))
    && (forall l :: l !in groups ==> Members(calls, labelOf, l) == [])
  }

  /** A call whose label already has a group joins the end of that group. */
  lemma JoinGroup(calls: seq<CallHistoryItem>, i: nat, labelOf: CallHistoryItem -> string,
                  keys: seq<string>, groups: map<string, seq<CallHistoryItem>>)
    requires i < |calls|
    requires Grouped(calls[..i], labelOf, keys, groups)
    requires labelOf(calls[i]) in groups
    ensures var l := labelOf(calls[i]);
            Grouped(calls[..i + 1], labelOf, keys, groups[l := groups[l] + [calls[i]]])
  {
    assert calls[..i + 1] == calls[..i] + [calls[i]];
    JoinGroupMembers(calls[..i], calls[i], labelOf, groups);
    JoinGroupKeys(calls[..i], calls[i], labelOf, keys);
  }

  /** A label already seen leaves the first-seen labels as they were. */
  lemma JoinGroupKeys(xs: seq<CallHistoryItem>, x: CallHistoryItem, labelOf: CallHistoryItem -> string, keys: seq<string>)
    requires keys == FirstSeen(xs, labelOf) && labelOf(x) in keys
    ensures keys == FirstSeen(xs + [x], labelOf)
  {
    Snoc(xs, x, labelOf);
  }

  /** The joined group gains the call at its end; every other group is unchanged. */
  lemma JoinGroupMembers(xs: seq<CallHistoryItem>, x: CallHistoryItem, labelOf: CallHistoryItem -> string,
                         groups: map<string, seq<CallHistoryItem>>)
    requires forall l :: l in groups ==> groups[l] == Members(xs, labelOf, l)
    requires forall l :: l !in groups ==> Members(xs, labelOf, l) == []
    requires labelOf(x) in groups
    ensures var groups' := groups[labelOf(x) := groups[labelOf(x)] + [x]];
            && (forall l :: l in groups' ==> groups'[l] == Members(xs + [x], labelOf, l))
            && (forall l :: l !in groups' ==> Members(xs + [x], labelOf, l) == [])
  {
    Snoc(xs, x, labelOf);
  }

  /** A call with a label not seen before opens a group of its own, after the others. */
  lemma OpenGroup(calls: seq<CallHistoryItem>, i: nat, labelOf: CallHistoryItem -> string,
                  keys: seq<string>, groups: map<string, seq<CallHistoryItem>>)
    requires i < |calls|
    requires Grouped(calls[..i], labelOf, keys, groups)
    requires labelOf(calls[i]) !in groups
    ensures var l := labelOf(calls[i]);
            Grouped(calls[..i + 1], labelOf, keys + [l], groups[l := [calls[i]]])
  {
    assert calls[..i + 1] == calls[..i] + [calls[i]];
    OpenGroupKeys(calls[..i], calls[i], labelOf, keys);
    OpenGroupMembers(calls[..i], calls[i], labelOf, groups);
  }

  /** A new label is appended to the first-seen labels. */
  lemma OpenGroupKeys(xs: seq<CallHistoryItem>, x: CallHistoryItem, labelOf: CallHistoryItem -> string, keys: seq<string>)
    requires keys == FirstSeen(xs, labelOf) && Distinct(keys) && labelOf(x) !in keys
    ensures keys + [labelOf(x)] == FirstSeen(xs + [x], labelOf) && Distinct(keys + [labelOf(x)])
  {
    Snoc(xs, x, labelOf);
  }

  /** A new label's group is the one call; every other group is unchanged. */
  lemma OpenGroupMembers(xs: seq<CallHistoryItem>, x: CallHistoryItem, labelOf: CallHistoryItem -> string,
                         groups: map<string, seq<CallHistoryItem>>)
    requires forall l :: l in groups ==> groups[l] == Members(xs, labelOf, l)
    requires forall l :: l !in groups ==> Members(xs, labelOf, l) == []
    requires labelOf(x) !in groups
    ensures forall l :: l in groups[labelOf(x) := [x]] ==> groups[labelOf(x) := [x]][l] == Members(xs + [x], labelOf, l)
    ensures forall l :: l !in groups[labelOf(x) := [x]] ==> Members(xs + [x], labelOf, l) == []
  {
    Snoc(xs, x, labelOf);
  }

  /**
   * The grouping loop: each call is pushed onto its label's group, a new
   * group being opened the first time a label is seen. The groups are the
   * label's members in list order, opened in order of first appearance,
   * and together they hold every call once.
   */
  method GroupCalls(filtered: seq<CallHistoryItem>, labelOf: CallHistoryItem -> string)
    returns (keys: seq<string>, groups: map<string, seq<CallHistoryItem>>)
    ensures keys == FirstSeen(filtered, labelOf) && Distinct(keys)
    ensures forall l :: l in groups <==> l in keys
    ensures forall l :: l in groups ==> groups[l] == Members(filtered, labelOf, l)
    ensures Total(keys, groups) == |filtered|
  {
    keys, groups := [], map[];
    var i := 0;
    while i < |filtered|
      invariant 0 <= i <= |filtered|
      invariant Grouped(filtered[..i], labelOf, keys, groups)
      invariant Total(keys, groups) == i
    {
      var call := filtered[i];
      var l := labelOf(call);
      if l in groups {
        JoinGroup(filtered, i, labelOf, keys, groups);
        TotalGrows(keys, groups, l, call);
        groups := groups[l := groups[l] + [call]];
      } else {
        OpenGroup(filtered, i, labelOf, keys, groups);
        OpenGroupTotal(keys, groups, l, [call]);
        keys := keys + [l];
        groups := groups[l := [call]];
      }
      i := i + 1;
    }
    assert filtered[..i] == filtered;
  }

  /** Every call of the filtered list is in the group of its own label and in no other. */
  lemma EachCallInOneGroup(filtered: seq<CallHistoryItem>, labelOf: CallHistoryItem -> string, c: CallHistoryItem, l: string)
    requires c in filtered
    ensures c in Members(filtered, labelOf, l) <==> l == labelOf(c)
  {
    MembersExactly(filtered, labelOf, l);
  }

  /** A group holds exactly the calls carrying its label. */
  lemma {:induction false} MembersExactly(calls: seq<CallHistoryItem>, labelOf: CallHistoryItem -> string, l: string)
    ensures forall c :: c in Members(calls, labelOf, l) <==> c in calls && labelOf(c) == l
    decreases |calls|
  {
    if calls != [] {
      var prefix := calls[..|calls| - 1];
      MembersExactly(prefix, labelOf, l);
      assert calls == prefix + [calls[|calls| - 1]];
    }
  }

  // ---------------------------------------------------------------------
  // Pagination
  // ---------------------------------------------------------------------

  /** `Math.ceil(total / perPage)`. */
  function TotalPages(total: nat, perPage: nat): (pages: nat)
    requires perPage > 0
    ensures total <= pages * perPage
    ensures pages > 0 ==> (pages - 1) * perPage < total
  {
    var n := total + perPage - 1;
    var q := n / perPage;
    assert n == q * perPage + n % perPage;
    assert q * perPage - perPage == (q - 1) * perPage;
    q
  }

  /** The `first – last of total` figures of page `page`. */
  function PageRange(page: nat, perPage: nat, total: nat): (r: (nat, nat))
    requires page >= 1 && perPage >= 1
    ensures r.0 <= r.1 <= total
    ensures (page - 1) * perPage < total ==> r.0 == (page - 1) * perPage + 1 && r.1 - r.0 < perPage
  {
    var first := if (page - 1) * perPage + 1 <= total then (page - 1) * perPage + 1 else total;
    var last := if page * perPage <= total then page * perPage else total;
    assert page * perPage == (page - 1) * perPage + perPage;
    (first, last)
  }
}
