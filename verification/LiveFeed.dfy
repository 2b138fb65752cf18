/** The bounded event feed of `frontend/components/live-event-stream.tsx` and the list it displays. */
module LiveFeed {
  import opened Lists
  import opened Optional
  import Orders
  import opened Text

  datatype Severity = Critical | Degraded | Health

  datatype LiveEvent = LiveEvent(
    id: string,
    kind: string,
    severity: Severity,
    stage: string,
    requestId: string,
    decisionId: string,
    occurredAt: string,
    owner: string,
    linkedPage: string,
    summary: string)

  const FEED_LIMIT: nat := 40

  /** `SEED_EVENTS`; only the identifiers matter to the feed. */
  const SEED_EVENTS: seq<LiveEvent> := [
    LiveEvent("evt-001", "fuji_reject", Critical, "triage", "req_9af21", "dec_2201", "2026-03-09T06:12:10Z", "Fuji",
              "decision", "Reject burst"),
    LiveEvent("evt-002", "replay_mismatch", Critical, "mitigate", "req_9af09", "dec_2198", "2026-03-09T06:10:22Z",
        "Kernel",
              "trustlog", "Replay mismatch"),
    LiveEvent("evt-003", "policy_update_pending", Degraded, "detect", "req_9aef0", "dec_2195", "2026-03-09T06:08:02Z",
              "Governance", "governance", "Sign-off pending")]

  // ---------------------------------------------------------------- the feed

  function OtherId(id: string): LiveEvent -> bool { (e: LiveEvent) => e.id != id }

  function Without(feed: seq<LiveEvent>, id: string): seq<LiveEvent> { Filter(OtherId(id), feed) }

  function Take<T>(n: nat, s: seq<T>): seq<T> {
    if |s| <= n then s else s[..n]
  }

  /** The `setEvents` updater. */
  function Upsert(feed: seq<LiveEvent>, e: LiveEvent): seq<LiveEvent> {
    Take(FEED_LIMIT, [e] + Without(feed, e.id))
  }

  function FeedAfter(seed: seq<LiveEvent>, events: seq<LiveEvent>): seq<LiveEvent> {
    if events == [] then seed
    else Upsert(FeedAfter(seed, events[..|events| - 1]), events[|events| - 1])
  }

  // ---------------------------------------------------------------- reference: the unbounded recency list

  /** Everything that was ever shown, most recent first. */
  function History(seed: seq<LiveEvent>, events: seq<LiveEvent>): seq<LiveEvent> {
    if events == [] then seed
    else [events[|events| - 1]] + History(seed, events[..|events| - 1])
  }

  /** Keep the first entry of every identifier. */
  function FirstById(history: seq<LiveEvent>): seq<LiveEvent> {
    if history == [] then [] else [history[0]] + Without(FirstById(history[1..]), history[0].id)
  }

  predicate DifferentIds(x: LiveEvent, y: LiveEvent) { x.id != y.id }

  ghost predicate DistinctIds(feed: seq<LiveEvent>) { Pairwise(DifferentIds, feed) }

  /** The position at which an identifier first occurs. */
  function FirstPosition(history: seq<LiveEvent>, id: string): nat {
    if history == [] || history[0].id == id then 0 else 1 + FirstPosition(history[1..], id)
  }

  ghost predicate CoversIds(history: seq<LiveEvent>, list: seq<LiveEvent>) {
    forall e :: e in history ==> exists k :: 0 <= k < |list| && list[k].id == e.id
  }

  ghost predicate HoldsLatest(history: seq<LiveEvent>, list: seq<LiveEvent>) {
    forall k :: 0 <= k < |list| ==>
      FirstPosition(history, list[k].id) < |history| && history[FirstPosition(history, list[k].id)] == list[k]
  }

  function OccursBefore(history: seq<LiveEvent>): (LiveEvent, LiveEvent) -> bool {
    (x: LiveEvent, y: LiveEvent) => FirstPosition(history, x.id) < FirstPosition(history, y.id)
  }

  ghost predicate InOrder(history: seq<LiveEvent>, list: seq<LiveEvent>) { Pairwise(OccursBefore(history), list) }

  /** `list` is `history` with repeats dropped, in order of first occurrence. */
  ghost predicate IsRecencyList(history: seq<LiveEvent>, list: seq<LiveEvent>) {
    CoversIds(history, list) && HoldsLatest(history, list) && InOrder(history, list)
  }

  // ---------------------------------------------------------------- facts about Without

  lemma {:induction false} WithoutDistinct(feed: seq<LiveEvent>, id: string)
    requires DistinctIds(feed)
    ensures DistinctIds(Without(feed, id))
    ensures forall e :: e in Without(feed, id) <==> e in feed && e.id != id
    ensures (exists e :: e in feed && e.id == id) ==> |Without(feed, id)| == |feed| - 1
    ensures (forall e :: e in feed ==> e.id != id) ==> Without(feed, id) == feed
  {
    hide Pairwise;
    FilterKeeps(OtherId(id), feed);
    FilterKeepsPairwise(OtherId(id), DifferentIds, feed);
    if feed != [] {
      PairwiseTail(DifferentIds, feed);
      WithoutDistinct(feed[1..], id);
      assert feed == [feed[0]] + feed[1..];
    }
  }

  lemma NoneDistinct()
    ensures DistinctIds([])
  {
  }

  lemma {:induction false} FirstByIdDistinct(history: seq<LiveEvent>)
    ensures DistinctIds(FirstById(history))
    ensures forall e :: e in FirstById(history) ==> e in history
    ensures DistinctIds(history) ==> FirstById(history) == history
  {
    hide Pairwise;
    if history == [] {
      NoneDistinct();
    } else {
      var shorter := FirstById(history[1..]);
      FirstByIdDistinct(history[1..]);
      WithoutDistinct(shorter, history[0].id);
      PairwiseCons(DifferentIds, history[0], Without(shorter, history[0].id));
      assert history == [history[0]] + history[1..];
      if DistinctIds(history) { PairwiseTail(DifferentIds, history); }
    }
  }

  // ---------------------------------------------------------------- the capped feed refines the unbounded one

  /** Moving to the front commutes with cutting off: the stack property of least-recently-used lists. */
  lemma UpsertOfPrefix(list: seq<LiveEvent>, e: LiveEvent)
    requires DistinctIds(list)
    ensures Upsert(Take(FEED_LIMIT, list), e) == Take(FEED_LIMIT, [e] + Without(list, e.id))
  {
    if |list| > FEED_LIMIT {
      var head, tail := list[..FEED_LIMIT], list[FEED_LIMIT..];
      assert list == head + tail;
      CutDistinct(head, tail);
      hide Pairwise;
      FilterAppend(OtherId(e.id), head, tail);
      WithoutDistinct(head, e.id);
      if exists x :: x in head && x.id == e.id {
        WithoutOther(head, tail, e.id);
      }
    }
  }

  lemma CutDistinct(head: seq<LiveEvent>, tail: seq<LiveEvent>)
    requires DistinctIds(head + tail)
    ensures DistinctIds(head)
  {
    forall i, j | 0 <= i < j < |head| ensures DifferentIds(head[i], head[j]) {
      assert DifferentIds((head + tail)[i], (head + tail)[j]);
    }
  }

  lemma WithoutOther(head: seq<LiveEvent>, tail: seq<LiveEvent>, id: string)
    requires DistinctIds(head + tail) && exists x :: x in head && x.id == id
    ensures Without(tail, id) == tail
  {
    var x :| x in head && x.id == id;
    var i :| 0 <= i < |head| && head[i] == x;
    forall y | y in tail ensures OtherId(id)(y) {
      var k :| 0 <= k < |tail| && tail[k] == y;
      assert (head + tail)[i] == x && (head + tail)[|head| + k] == y;
    }
    FilterKeeps(OtherId(id), tail);
  }

  /** After any events, the feed is the first 40 entries of the recency list of everything shown. */
  lemma {:induction false} FeedIsRecencyPrefix(seed: seq<LiveEvent>, events: seq<LiveEvent>)
    requires DistinctIds(seed) && |seed| <= FEED_LIMIT
    ensures FeedAfter(seed, events) == Take(FEED_LIMIT, FirstById(History(seed, events)))
  {
    if events == [] {
      FirstByIdDistinct(seed);
    } else {
      var before, e := events[..|events| - 1], events[|events| - 1];
      FeedIsRecencyPrefix(seed, before);
      FirstByIdDistinct(History(seed, before));
      UpsertOfPrefix(FirstById(History(seed, before)), e);
      assert History(seed, events)[1..] == History(seed, before);
    }
  }

  lemma {:induction false} FirstByIdIsRecencyList(history: seq<LiveEvent>)
    ensures IsRecencyList(history, FirstById(history))
  {
    if history != [] {
      FirstByIdIsRecencyList(history[1..]);
      FirstByIdDistinct(history[1..]);
      ConsCovers(history, FirstById(history[1..]));
      ConsHoldsLatest(history, FirstById(history[1..]));
      ConsInOrder(history, FirstById(history[1..]));
    }
  }

  lemma ConsCovers(history: seq<LiveEvent>, shorter: seq<LiveEvent>)
    requires history != [] && CoversIds(history[1..], shorter)
    ensures CoversIds(history, [history[0]] + Without(shorter, history[0].id))
  {
    var id := history[0].id;
    var list := [history[0]] + Without(shorter, id);
    FilterKeeps(OtherId(id), shorter);
    forall e | e in history ensures exists k :: 0 <= k < |list| && list[k].id == e.id {
      if e.id == id {
        assert list[0].id == e.id;
      } else {
        assert e in history[1..];
        var m :| 0 <= m < |shorter| && shorter[m].id == e.id;
        assert shorter[m] in Without(shorter, id);
        var k :| 0 <= k < |Without(shorter, id)| && Without(shorter, id)[k] == shorter[m];
        assert list[k + 1].id == e.id;
      }
    }
  }

  lemma ConsHoldsLatest(history: seq<LiveEvent>, shorter: seq<LiveEvent>)
    requires history != [] && HoldsLatest(history[1..], shorter)
    ensures HoldsLatest(history, [history[0]] + Without(shorter, history[0].id))
  {
    var id := history[0].id;
    var kept := Without(shorter, id);
    FilterKeeps(OtherId(id), shorter);
    forall k | 0 <= k < |kept| ensures FirstPosition(history, kept[k].id) < |history| &&
                                       history[FirstPosition(history, kept[k].id)] == kept[k] {
      assert kept[k] in kept;
      var m :| 0 <= m < |shorter| && shorter[m] == kept[k];
    }
  }

  lemma ConsInOrder(history: seq<LiveEvent>, shorter: seq<LiveEvent>)
    requires history != [] && InOrder(history[1..], shorter)
    ensures InOrder(history, [history[0]] + Without(shorter, history[0].id))
  {
    var id := history[0].id;
    var kept := Without(shorter, id);
    FilterKeeps(OtherId(id), shorter);
    FilterKeepsPairwise(OtherId(id), OccursBefore(history[1..]), shorter);
    forall k | 0 <= k < |kept|
        ensures FirstPosition(history, kept[k].id) == 1 + FirstPosition(history[1..], kept[k].id) {
      assert kept[k] in kept;
    }
  }

  /** What the component shows over its whole life, with no reference to the updater: at most 40 entries with
      distinct identifiers, the most recently seen ones, each in its latest version and in order of recency. */
  lemma FeedShowsLatest(seed: seq<LiveEvent>, events: seq<LiveEvent>)
    requires DistinctIds(seed) && |seed| <= FEED_LIMIT
    ensures var feed := FeedAfter(seed, events);
            && |feed| <= 40
            && DistinctIds(feed)
            && exists all :: IsRecencyList(History(seed, events), all) && feed == Take(40, all)
  {
    hide History, FeedAfter, IsRecencyList;
    FeedIsRecencyPrefix(seed, events);
    FirstByIdIsRecencyList(History(seed, events));
    FirstByIdDistinct(History(seed, events));
  }

  /** The seed list meets the condition. */
  lemma SeedIsDistinct()
    ensures DistinctIds(SEED_EVENTS) && |SEED_EVENTS| <= FEED_LIMIT
  {
    assert SEED_EVENTS[0].id[6] == '1' && SEED_EVENTS[1].id[6] == '2' && SEED_EVENTS[2].id[6] == '3';
  }

  /** A history has one recency list, so the statement above determines the feed. */
  lemma RecencyListIsUnique(history: seq<LiveEvent>, a: seq<LiveEvent>, b: seq<LiveEvent>)
    requires IsRecencyList(history, a) && IsRecencyList(history, b)
    ensures a == b
  {
    var p := seq(|a|, k requires 0 <= k < |a| => FirstPosition(history, a[k].id));
    var q := seq(|b|, k requires 0 <= k < |b| => FirstPosition(history, b[k].id));
    NatOrder();
    RecencyPositions(history, a, b, p, q);
    RecencyPositions(history, b, a, q, p);
    var positions := set x | x in p;
    Orders.EnumerationIsUnique<nat>((x: nat, y: nat) => x <= y, positions, p, q);
    forall k | 0 <= k < |a| ensures a[k] == b[k] { assert p[k] == q[k]; }
  }

  lemma RecencyPositions(history: seq<LiveEvent>, a: seq<LiveEvent>, b: seq<LiveEvent>, p: seq<nat>, q: seq<nat>)
    requires IsRecencyList(history, a) && IsRecencyList(history, b)
    requires |p| == |a| && |q| == |b|
    requires forall k :: 0 <= k < |a| ==> p[k] == FirstPosition(history, a[k].id)
    requires forall k :: 0 <= k < |b| ==> q[k] == FirstPosition(history, b[k].id)
    ensures forall x :: x in p ==> x in q
  {
    forall x | x in p ensures x in q {
      var k :| 0 <= k < |p| && p[k] == x;
      assert history[x] in history;
      var m :| 0 <= m < |b| && b[m].id == a[k].id;
      assert q[m] == x;
    }
  }

  // ---------------------------------------------------------------- the displayed list

  /** The comparator passed to `sort`. */
  function ComparePinned(pinned: string -> bool, left: LiveEvent, right: LiveEvent): int {
    if pinned(left.id) == pinned(right.id) then 0 else if pinned(left.id) then -1 else 1
  }

  /** `output` is what a stable sort may return for `input`: `origin` says where each entry came from. */
  ghost predicate IsStableSort(pinned: string -> bool, input: seq<LiveEvent>, output: seq<LiveEvent>,
      origin: seq<nat>) {
    && IsPermutation(input, output, origin)
    && (forall i, j :: 0 <= i < j < |output| ==>
          && ComparePinned(pinned, output[i], output[j]) <= 0
          && (ComparePinned(pinned, output[i], output[j]) == 0 ==> origin[i] < origin[j]))
  }

  ghost predicate IsPermutation(input: seq<LiveEvent>, output: seq<LiveEvent>, origin: seq<nat>) {
    && |origin| == |output| == |input|
    && (forall k: nat :: k < |input| ==> k in origin)
    && (forall i, j :: 0 <= i < j < |origin| ==> origin[i] != origin[j])
    && (forall i :: 0 <= i < |origin| ==> origin[i] < |input| && output[i] == input[origin[i]])
  }

  function PinnedFirst(pinned: string -> bool, input: seq<LiveEvent>): seq<LiveEvent> {
    Filter(IsPinned(pinned), input) + Filter(Not(IsPinned(pinned)), input)
  }

  function IsPinned(pinned: string -> bool): LiveEvent -> bool { (e: LiveEvent) => pinned(e.id) }

  /** The positions from `k` on that hold an element to keep. */
  function Positions<T>(keep: T -> bool, s: seq<T>, k: nat): seq<nat>
    requires k <= |s|
    decreases |s| - k
  {
    if k == |s| then [] else (if keep(s[k]) then [k] else []) + Positions(keep, s, k + 1)
  }

  lemma {:induction false} PositionsAre<T>(keep: T -> bool, s: seq<T>, k: nat)
    requires k <= |s|
    ensures var r := Positions(keep, s, k);
            && (forall m: nat :: m in r <==> k <= m < |s| && keep(s[m]))
            && (forall i, j :: 0 <= i < j < |r| ==> r[i] < r[j])
    decreases |s| - k
  {
    if k < |s| {
      PositionsAre(keep, s, k + 1);
      var rest := Positions(keep, s, k + 1);
      var r := Positions(keep, s, k);
      forall i, j | 0 <= i < j < |r| ensures r[i] < r[j] {
        if |r| > |rest| { assert r[j] == rest[j - 1] && rest[j - 1] in rest; }
      }
    }
  }

  /** The entries of `s` at some positions. */
  function Picked<T>(s: seq<T>, positions: seq<nat>): seq<T>
    requires forall i :: 0 <= i < |positions| ==> positions[i] < |s|
  {
    if positions == [] then [] else [s[positions[0]]] + Picked(s, positions[1..])
  }

  lemma {:induction false} PickedAt<T>(s: seq<T>, positions: seq<nat>)
    requires forall i :: 0 <= i < |positions| ==> positions[i] < |s|
    ensures |Picked(s, positions)| == |positions|
    ensures forall i :: 0 <= i < |positions| ==> Picked(s, positions)[i] == s[positions[i]]
  {
    if positions != [] { PickedAt(s, positions[1..]); }
  }

  lemma {:induction false} PickedPositions<T>(keep: T -> bool, s: seq<T>, k: nat)
    requires k <= |s|
    ensures forall i :: 0 <= i < |Positions(keep, s, k)| ==> Positions(keep, s, k)[i] < |s|
    ensures Picked(s, Positions(keep, s, k)) == Filter(keep, s[k..])
    decreases |s| - k
  {
    if k < |s| {
      PickedPositions(keep, s, k + 1);
      assert s[k..][0] == s[k] && s[k..][1..] == s[k + 1..];
      if keep(s[k]) {
        assert Positions(keep, s, k)[1..] == Positions(keep, s, k + 1);
      } else {
        assert Positions(keep, s, k) == Positions(keep, s, k + 1);
      }
    }
  }

  lemma PositionsPick<T>(keep: T -> bool, s: seq<T>, k: nat)
    requires k <= |s|
    ensures var r := Positions(keep, s, k);
            && |r| == |Filter(keep, s[k..])|
            && forall i :: 0 <= i < |r| ==> r[i] < |s| && Filter(keep, s[k..])[i] == s[r[i]] && keep(s[r[i]])
  {
    hide *;
    var r := Positions(keep, s, k);
    PositionsAre(keep, s, k);
    PickedPositions(keep, s, k);
    PickedAt(s, r);
    forall i | 0 <= i < |r| ensures r[i] < |s| && keep(s[r[i]]) { assert r[i] in r; }
  }

  lemma NatOrder()
    ensures Orders.TotalOrder((x: nat, y: nat) => x <= y)
  {
  }

  /** An ascending list of exactly the positions to keep picks out exactly the filtered list. */
  lemma AscendingPicksFilter<T>(keep: T -> bool, s: seq<T>, positions: seq<nat>)
    requires forall i :: 0 <= i < |positions| ==> positions[i] < |s| && keep(s[positions[i]])
    requires forall i, j :: 0 <= i < j < |positions| ==> positions[i] < positions[j]
    requires forall m: nat :: m < |s| && keep(s[m]) ==> m in positions
    ensures |positions| == |Filter(keep, s)|
    ensures forall i :: 0 <= i < |positions| ==> Filter(keep, s)[i] == s[positions[i]]
  {
    NatOrder();
    hide Orders.TotalOrder;
    var r := Positions(keep, s, 0);
    PositionsPick(keep, s, 0);
    PositionsAre(keep, s, 0);
    assert s[0..] == s;
    var kept := set m: nat | m < |s| && keep(s[m]);
    Orders.EnumerationIsUnique<nat>((x: nat, y: nat) => x <= y, kept, positions, r);
  }

  /** Whatever stable sorting algorithm runs: pinned events first, both groups in feed order. */
  lemma StableSortPartitions(pinned: string -> bool, input: seq<LiveEvent>, output: seq<LiveEvent>, origin: seq<nat>)
    requires IsStableSort(pinned, input, output, origin)
    ensures output == PinnedFirst(pinned, input)
  {
    var m := 0;
    while m < |output| && pinned(output[m].id)
      invariant 0 <= m <= |output|
      invariant forall i :: 0 <= i < m ==> pinned(output[i].id)
    {
      m := m + 1;
    }
    forall j | m <= j < |output| ensures !pinned(output[j].id) {
      if j > m { assert ComparePinned(pinned, output[m], output[j]) <= 0; }
    }
    forall i, j | 0 <= i < j < |output| && (j < m || m <= i) ensures origin[i] < origin[j] {
      assert ComparePinned(pinned, output[i], output[j]) == 0;
    }
    OriginHalf(IsPinned(pinned), input, output, origin, 0, m);
    OriginHalf(Not(IsPinned(pinned)), input, output, origin, m, |output|);
    assert output == output[0..m] + output[m..|output|];
  }

  lemma OriginHalf(keep: LiveEvent -> bool, input: seq<LiveEvent>, output: seq<LiveEvent>, origin: seq<nat>,
                   low: nat, high: nat)
    requires IsPermutation(input, output, origin)
    requires low <= high <= |output|
    requires forall i :: 0 <= i < |output| ==> (low <= i < high <==> keep(output[i]))
    requires forall i, j :: low <= i < j < high ==> origin[i] < origin[j]
    ensures output[low..high] == Filter(keep, input)
  {
    hide Filter;
    var positions := origin[low..high];
    forall k: nat | k < |input| && keep(input[k]) ensures k in positions {
      assert k in origin;
      var i :| 0 <= i < |origin| && origin[i] == k;
      assert keep(output[i]);
      assert positions[i - low] == k;
    }
    AscendingPicksFilter(keep, input, positions);
  }

  /** The partition is itself a stable sort, so the statement above is about something. */
  lemma PinnedFirstIsStableSort(pinned: string -> bool, input: seq<LiveEvent>)
    ensures exists origin :: IsStableSort(pinned, input, PinnedFirst(pinned, input), origin)
  {
    var on, off := IsPinned(pinned), Not(IsPinned(pinned));
    assert input[0..] == input;
    var first, second := Positions(on, input, 0), Positions(off, input, 0);
    PositionsPick(on, input, 0);
    PositionsPick(off, input, 0);
    PositionsAre(on, input, 0);
    PositionsAre(off, input, 0);
    PositionsSplit(on, input);
    var output := PinnedFirst(pinned, input);
    forall i | 0 <= i < |output| ensures (first + second)[i] < |input| && output[i] == input[(first + second)[i]] {
    }
    ConcatenationIsStable(pinned, input, output, first, second);
  }

  lemma ConcatenationIsStable(pinned: string -> bool, input: seq<LiveEvent>, output: seq<LiveEvent>,
                              first: seq<nat>, second: seq<nat>)
    requires IsPermutation(input, output, first + second)
    requires forall i, j :: 0 <= i < j < |first| ==> first[i] < first[j]
    requires forall i, j :: 0 <= i < j < |second| ==> second[i] < second[j]
    requires forall i :: 0 <= i < |first| ==> first[i] < |input| && pinned(input[first[i]].id)
    requires forall i :: 0 <= i < |second| ==> second[i] < |input| && !pinned(input[second[i]].id)
    ensures IsStableSort(pinned, input, output, first + second)
  {
    var origin := first + second;
    forall i, j | 0 <= i < j < |output|
      ensures ComparePinned(pinned, output[i], output[j]) <= 0
      ensures ComparePinned(pinned, output[i], output[j]) == 0 ==> origin[i] < origin[j]
    {
      assert pinned(output[i].id) == (i < |first|) && pinned(output[j].id) == (j < |first|);
    }
  }

  lemma PositionsSplit<T>(keep: T -> bool, s: seq<T>)
    ensures var origin := Positions(keep, s, 0) + Positions(Not(keep), s, 0);
            && |origin| == |s|
            && (forall k: nat :: k < |s| ==> k in origin)
            && (forall i, j :: 0 <= i < j < |origin| ==> origin[i] != origin[j])
  {
    var first, second := Positions(keep, s, 0), Positions(Not(keep), s, 0);
    var origin := first + second;
    PositionsPick(keep, s, 0);
    PositionsPick(Not(keep), s, 0);
    PositionsAre(keep, s, 0);
    PositionsAre(Not(keep), s, 0);
    assert s[0..] == s;
    FilterSplitsMultiset(keep, s);
    assert |multiset(s)| == |s|;
    forall k: nat | k < |s| ensures k in origin {
      if keep(s[k]) { assert k in first; } else { assert k in second; }
    }
    forall i, j | 0 <= i < j < |origin| ensures origin[i] != origin[j] {
      if i < |first| <= j { assert keep(s[first[i]]) && !keep(s[second[j - |first|]]); }
    }
  }

  // ---------------------------------------------------------------- mute, severity and search

  function IsUnmuted(muted: string -> bool): LiveEvent -> bool { (e: LiveEvent) => !muted(e.id) }

  function HasSeverity(severity: Severity): LiveEvent -> bool { (e: LiveEvent) => e.severity == severity }

  function Mentions(searchable: LiveEvent -> string, query: string): LiveEvent -> bool {
    (e: LiveEvent) => Contains(searchable(e), query)
  }

  /** The filters of `filteredEvents`.  No severity stands for "all"; `searchable` is the lower-cased text of an
      event, `query` the trimmed lower-cased search box. */
  function Filtered(feed: seq<LiveEvent>, muted: string -> bool, severity: Option<Severity>,
                    searchable: LiveEvent -> string, query: string): seq<LiveEvent>
  {
    var withoutMuted := Filter(IsUnmuted(muted), feed);
    var severityFiltered := if severity.None? then withoutMuted else Filter(HasSeverity(severity.value), withoutMuted);
    if |query| == 0 then severityFiltered else Filter(Mentions(searchable, query), severityFiltered)
  }

  ghost predicate Passes(e: LiveEvent, muted: string -> bool, severity: Option<Severity>,
                         searchable: LiveEvent -> string, query: string)
  {
    && !muted(e.id)
    && (severity.Some? ==> e.severity == severity.value)
    && Occurs(query, searchable(e))
  }

  ghost function Passing(muted: string -> bool, severity: Option<Severity>, searchable: LiveEvent -> string,
      query: string)
    : LiveEvent -> bool
  {
    (e: LiveEvent) => Passes(e, muted, severity, searchable, query)
  }

  /** The events that survive are the ones that pass all three tests: the two early exits change nothing. */
  lemma FilteredKeepsPassing(feed: seq<LiveEvent>, muted: string -> bool, severity: Option<Severity>,
                             searchable: LiveEvent -> string, query: string)
    ensures Filtered(feed, muted, severity, searchable, query)
        == Filter(Passing(muted, severity, searchable, query), feed)
  {
    hide Contains, Occurs;
    forall text: string ensures Contains(text, query) <==> Occurs(query, text) { ContainsIffOccurs(text, query); }
    if query == "" { forall text: string ensures Occurs(query, text) { NothingOccurs(text); } }
    var unmuted := IsUnmuted(muted);
    var mentions := Mentions(searchable, query);
    var first := Filter(unmuted, feed);
    var two := if severity.None? then unmuted else And(HasSeverity(severity.value), unmuted);
    if severity.Some? { FilterTwice(HasSeverity(severity.value), unmuted, feed); }
    var second := Filter(two, feed);
    if |query| == 0 {
      FilterSame(two, Passing(muted, severity, searchable, query), feed);
    } else {
      FilterTwice(mentions, two, feed);
      FilterSame(And(mentions, two), Passing(muted, severity, searchable, query), feed);
    }
  }

  /** Any two filters commute, so mute, severity and search may be applied in any order. */
  lemma FiltersCommute(p: LiveEvent -> bool, q: LiveEvent -> bool, feed: seq<LiveEvent>)
    ensures Filter(p, Filter(q, feed)) == Filter(q, Filter(p, feed))
  {
    FilterTwice(p, q, feed);
    FilterTwice(q, p, feed);
    FilterSame(And(p, q), And(q, p), feed);
  }

  /** End to end: the displayed list, for any stable sort, holds the passing events that are pinned, then the
      passing events that are not, each group in feed order; it is a permutation of the passing events. */
  lemma DisplayedList(feed: seq<LiveEvent>, muted: string -> bool, severity: Option<Severity>,
                      searchable: LiveEvent -> string, query: string, pinned: string -> bool,
                      displayed: seq<LiveEvent>, origin: seq<nat>)
    requires IsStableSort(pinned, Filtered(feed, muted, severity, searchable, query), displayed, origin)
    ensures var passing := Passing(muted, severity, searchable, query);
            && displayed == Filter(And(IsPinned(pinned), passing), feed)
                + Filter(And(Not(IsPinned(pinned)), passing), feed)
            && multiset(displayed) == multiset(Filter(passing, feed))
    ensures forall e :: e in displayed <==>
              && e in feed && !muted(e.id) && (severity.Some? ==> e.severity == severity.value)
              && Occurs(query, searchable(e))
    ensures forall i, j :: 0 <= i < j < |displayed| && pinned(displayed[j].id) ==> pinned(displayed[i].id)
  {
    hide *;
    var passing := Passing(muted, severity, searchable, query);
    FilteredKeepsPassing(feed, muted, severity, searchable, query);
    StableSortPartitions(pinned, Filter(passing, feed), displayed, origin);
    FilterTwice(IsPinned(pinned), passing, feed);
    FilterTwice(Not(IsPinned(pinned)), passing, feed);
    FilterSplitsMultiset(IsPinned(pinned), Filter(passing, feed));
    PartitionOf(pinned, Filter(passing, feed), displayed);
    PassingEvents(feed, muted, severity, searchable, query, displayed);
  }

  lemma PartitionOf(pinned: string -> bool, input: seq<LiveEvent>, displayed: seq<LiveEvent>)
    requires displayed == PinnedFirst(pinned, input)
    ensures displayed == Filter(IsPinned(pinned), input) + Filter(Not(IsPinned(pinned)), input)
    ensures multiset(displayed) == multiset(input)
    ensures forall i, j :: 0 <= i < j < |displayed| && pinned(displayed[j].id) ==> pinned(displayed[i].id)
  {
    hide Filter;
    FilterSplitsMultiset(IsPinned(pinned), input);
    FilterKeeps(IsPinned(pinned), input);
    FilterKeeps(Not(IsPinned(pinned)), input);
    var first, second := Filter(IsPinned(pinned), input), Filter(Not(IsPinned(pinned)), input);
    forall i | 0 <= i < |displayed| ensures pinned(displayed[i].id) <==> i < |first| {
      assert if i < |first| then displayed[i] in first else displayed[i] in second;
    }
  }

  lemma PassingEvents(feed: seq<LiveEvent>, muted: string -> bool, severity: Option<Severity>,
                      searchable: LiveEvent -> string, query: string, displayed: seq<LiveEvent>)
    requires multiset(displayed) == multiset(Filter(Passing(muted, severity, searchable, query), feed))
    ensures forall e :: e in displayed <==>
              && e in feed && !muted(e.id) && (severity.Some? ==> e.severity == severity.value)
              && Occurs(query, searchable(e))
  {
    hide Occurs, Filter;
    var passing := Passing(muted, severity, searchable, query);
    FilterKeeps(passing, feed);
    forall e ensures e in displayed <==> e in Filter(passing, feed) {
      assert e in displayed <==> e in multiset(displayed);
      assert e in Filter(passing, feed) <==> e in multiset(Filter(passing, feed));
    }
  }

  lemma NothingOccurs(text: string)
    ensures Occurs("", text)
  {
    assert StandsAt("", text, 0);
  }
}
