/**
 * The batch runner (`run_metrics_batch.py`): it runs query sets as sessions,
 * keeps each session's (query, truncated response) outputs, and measures
 * reproducibility as the share of identical output lists among pairs of
 * sessions with the same corpus and seed.
 *
 * The conversation handler's replies and the session metrics it ends with are
 * parameters: `reply(sessionId, earlierQueries, query)` and `ended(sessionId)`.
 */
module Batch {
  import opened Options
  import opened Text
  import opened Metrics

  datatype Output = Output(query: string, response: string)

  /** One entry of `session_outputs`. */
  datatype SessionRun = SessionRun(sessionId: string, outputs: seq<Output>, corpus: string, seed: Option<int>)

  /** One entry of `all_sessions_metrics`: the ended session's metrics plus the batch's keys. */
  datatype SessionRecord = SessionRecord(metrics: SessionEntry, sessionId: string, corpus: string,
                                         seed: Option<int>, outputs: seq<Output>)

  /** The handler's reply in a session to a query, given the session's earlier queries. */
  type Responder = (string, seq<string>, string) -> string

  /** `response[:500] if len(response) > 500 else response`. */
  function Truncate(response: string): (r: string)
    ensures |r| <= 500 && |r| <= |response|
    ensures r == response[..|r|]
    ensures |response| <= 500 ==> r == response
  {
    if |response| > 500 then response[..500] else response
  }

  function OutputsOf(queries: seq<string>, reply: Responder, sessionId: string): (r: seq<Output>)
    ensures |r| == |queries|
  {
    seq(|queries|, i requires 0 <= i < |queries| => Output(queries[i], Truncate(reply(sessionId, queries[..i], queries[i]))))
  }

  /** The default session id: the clock reading and the number of sessions run so far. */
  function BatchSessionId(given: Option<string>, clock: string, count: nat): string
  {
    if given.Some? then given.value else "batch_" + clock + "_" + NatToString(count)
  }

  function SessionName(round: nat, slot: nat): string
  {
    "session_" + NatToString(round) + "_" + NatToString(slot)
  }

  /** The sessions `run_multiple_sessions` runs: round by round, each query slot in order. */
  function Plan(queriesList: seq<seq<string>>, rounds: nat): (p: seq<(string, seq<string>)>)
  {
    if rounds == 0 then [] else Plan(queriesList, rounds - 1) + Round(queriesList, rounds - 1)
  }

  function Round(queriesList: seq<seq<string>>, round: nat): (r: seq<(string, seq<string>)>)
    ensures |r| == |queriesList|
    ensures forall j :: 0 <= j < |queriesList| ==> r[j] == (SessionName(round, j), queriesList[j])
  {
    seq(|queriesList|, j requires 0 <= j < |queriesList| => (SessionName(round, j), queriesList[j]))
  }

  // ---------------------------------------------------------------------
  // Comparing outputs

  /** The element-wise comparison of `_outputs_identical`. */
  predicate SameOutputs(a: seq<Output>, b: seq<Output>)
  {
    |a| == |b| && forall i :: 0 <= i < |a| ==> a[i].query == b[i].query && a[i].response == b[i].response
  }

  /** Comparing query and response at every index is list equality, so it is reflexive and symmetric. */
  lemma SameOutputsIsEquality(a: seq<Output>, b: seq<Output>)
    ensures SameOutputs(a, b) <==> a == b
    ensures SameOutputs(a, a)
    ensures SameOutputs(a, b) ==> SameOutputs(b, a)
  {
    if SameOutputs(a, b) {
      assert forall i :: 0 <= i < |a| ==> a[i] == b[i];
    }
  }

  /** `_outputs_identical`: lengths first, then the first differing query or response. */
  method OutputsIdentical(a: seq<Output>, b: seq<Output>) returns (same: bool)
    ensures same <==> SameOutputs(a, b)
  {
    if |a| != |b| {
      return false;
    }
    for i := 0 to |a|
      invariant forall k :: 0 <= k < i ==> a[k].query == b[k].query && a[k].response == b[k].response
    {
      if a[i].query != b[i].query {
        return false;
      }
      if a[i].response != b[i].response {
        return false;
      }
    }
    return true;
  }

  // ---------------------------------------------------------------------
  // Grouping by (corpus, seed)

  type GroupKey = (string, Option<int>)

  function KeyOf(r: SessionRun): GroupKey
  {
    (r.corpus, r.seed)
  }

  /** The `groups` dictionary: keys in order of first appearance, each with its sessions in order. */
  type Groups = seq<(GroupKey, seq<SessionRun>)>

  function Find(groups: Groups, key: GroupKey): (r: Option<nat>)
    ensures r.Some? ==> r.value < |groups| && groups[r.value].0 == key
    ensures r.None? ==> forall g :: 0 <= g < |groups| ==> groups[g].0 != key
  {
    if groups == [] then None
    else if groups[|groups| - 1].0 == key then Some(|groups| - 1)
    else Find(groups[..|groups| - 1], key)
  }

  /** One step of the grouping loop: a new key opens a group, a known one grows its group. */
  function AddToGroups(groups: Groups, r: SessionRun): Groups
  {
    match Find(groups, KeyOf(r))
    case None => groups + [(KeyOf(r), [r])]
    case Some(g) => groups[g := (KeyOf(r), groups[g].1 + [r])]
  }

  function Grouped(runs: seq<SessionRun>): Groups
  {
    if runs == [] then [] else AddToGroups(Grouped(runs[..|runs| - 1]), runs[|runs| - 1])
  }

  /** The sessions with a given key, in order. */
  function WithKey(runs: seq<SessionRun>, key: GroupKey): seq<SessionRun>
  {
    if runs == [] then []
    else WithKey(runs[..|runs| - 1], key) + (if KeyOf(runs[|runs| - 1]) == key then [runs[|runs| - 1]] else [])
  }

  predicate GroupsPartition(groups: Groups, runs: seq<SessionRun>)
  {
    && (forall g, h :: 0 <= g < h < |groups| ==> groups[g].0 != groups[h].0)
    && (forall g :: 0 <= g < |groups| ==> groups[g].1 == WithKey(runs, groups[g].0))
    && (forall i :: 0 <= i < |runs| ==> Find(groups, KeyOf(runs[i])).Some?)
  }

  lemma AddToGroupsPartition(groups: Groups, runs: seq<SessionRun>, r: SessionRun)
    requires GroupsPartition(groups, runs)
    ensures GroupsPartition(AddToGroups(groups, r), runs + [r])
  {
    AddToGroupsDistinct(groups, r);
    AddToGroupsMembers(groups, runs, r);
    AddToGroupsCovers(groups, runs, r);
  }

  lemma AddToGroupsDistinct(groups: Groups, r: SessionRun)
    requires forall g, h :: 0 <= g < h < |groups| ==> groups[g].0 != groups[h].0
    ensures var next := AddToGroups(groups, r);
      forall g, h :: 0 <= g < h < |next| ==> next[g].0 != next[h].0
  {
  }

  lemma AddToGroupsMembers(groups: Groups, runs: seq<SessionRun>, r: SessionRun)
    requires GroupsPartition(groups, runs)
    ensures var next := AddToGroups(groups, r);
      forall g :: 0 <= g < |next| ==> next[g].1 == WithKey(runs + [r], next[g].0)
  {
    var all := runs + [r];
    assert all[..|all| - 1] == runs;
    var next := AddToGroups(groups, r);
    forall g | 0 <= g < |next| ensures next[g].1 == WithKey(all, next[g].0) {
      if g < |groups| {
        assert WithKey(all, groups[g].0) == WithKey(runs, groups[g].0) + (if KeyOf(r) == groups[g].0 then [r] else []);
      } else {
        assert WithKey(all, KeyOf(r)) == WithKey(runs, KeyOf(r)) + [r];
        NoneWithKey(runs, KeyOf(r), groups);
      }
    }
  }

  lemma AddToGroupsCovers(groups: Groups, runs: seq<SessionRun>, r: SessionRun)
    requires forall i :: 0 <= i < |runs| ==> Find(groups, KeyOf(runs[i])).Some?
    ensures forall i :: 0 <= i < |runs + [r]| ==> Find(AddToGroups(groups, r), KeyOf((runs + [r])[i])).Some?
  {
    var all := runs + [r];
    var next := AddToGroups(groups, r);
    assert |next| >= |groups|;
    forall i | 0 <= i < |all| ensures Find(next, KeyOf(all[i])).Some? {
      if i < |runs| {
        assert all[i] == runs[i];
        var g := Find(groups, KeyOf(runs[i])).value;
        assert next[g].0 == groups[g].0;
      } else {
        match Find(groups, KeyOf(r))
        case None => assert next[|groups|].0 == KeyOf(r);
        case Some(g) => assert next[g].0 == KeyOf(r);
      }
    }
  }

  /** A key no group has appears in no session seen so far. */
  lemma NoneWithKey(runs: seq<SessionRun>, key: GroupKey, groups: Groups)
    requires GroupsPartition(groups, runs) && Find(groups, key).None?
    ensures WithKey(runs, key) == []
  {
    if WithKey(runs, key) != [] {
      var i := KeyedIndex(runs, key);
      assert false;
    }
  }

  lemma {:induction false} KeyedIndex(runs: seq<SessionRun>, key: GroupKey) returns (i: nat)
    requires WithKey(runs, key) != []
    ensures i < |runs| && KeyOf(runs[i]) == key
    decreases |runs|
  {
    var last := |runs| - 1;
    if KeyOf(runs[last]) == key {
      i := last;
    } else {
      i := KeyedIndex(runs[..last], key);
    }
  }

  /** Each group holds exactly the sessions with its key, in order, and no key is split. */
  lemma {:induction false} GroupedPartition(runs: seq<SessionRun>)
    ensures GroupsPartition(Grouped(runs), runs)
    decreases |runs|
  {
    if runs != [] {
      var last := |runs| - 1;
      GroupedPartition(runs[..last]);
      AddToGroupsPartition(Grouped(runs[..last]), runs[..last], runs[last]);
      assert runs[..last] + [runs[last]] == runs;
    }
  }

  // ---------------------------------------------------------------------
  // Counting pairs

  /** Later sessions `j` in `i+1 .. hi-1` whose outputs equal those of session `i`. */
  function SameIn(ms: seq<SessionRun>, i: nat, hi: nat): nat
    requires i < |ms| && hi <= |ms|
    decreases hi
  {
    if hi <= i + 1 then 0
    else SameIn(ms, i, hi - 1) + (if SameOutputs(ms[i].outputs, ms[hi - 1].outputs) then 1 else 0)
  }

  /** Identical pairs whose first member is among the first `rows` sessions. */
  function RowsSame(ms: seq<SessionRun>, rows: nat): nat
    requires rows <= |ms|
  {
    if rows == 0 then 0 else RowsSame(ms, rows - 1) + SameIn(ms, rows - 1, |ms|)
  }

  /** Pairs whose first member is among the first `rows` of `n` sessions. */
  function RowsTotal(n: nat, rows: nat): nat
    requires rows <= n
  {
    if rows == 0 then 0 else RowsTotal(n, rows - 1) + (n - rows)
  }

  function GroupSame(ms: seq<SessionRun>): nat
  {
    if |ms| < 2 then 0 else RowsSame(ms, |ms|)
  }

  function GroupTotal(ms: seq<SessionRun>): nat
  {
    if |ms| < 2 then 0 else RowsTotal(|ms|, |ms|)
  }

  function SameTotal(groups: Groups): nat
  {
    if groups == [] then 0 else SameTotal(groups[..|groups| - 1]) + GroupSame(groups[|groups| - 1].1)
  }

  function PairTotal(groups: Groups): nat
  {
    if groups == [] then 0 else PairTotal(groups[..|groups| - 1]) + GroupTotal(groups[|groups| - 1].1)
  }

  /**
   * `calculate_reproducibility` on a list of session outputs: the share of
   * compared pairs that are identical, so a rate in [0, 1]; fewer than two
   * sessions give 0.0.
   */
  function Reproducibility(runs: seq<SessionRun>): (r: real)
    ensures 0.0 <= r <= 1.0
    ensures |runs| < 2 ==> r == 0.0
    ensures |runs| >= 2 && PairTotal(Grouped(runs)) == 0 ==> r == 0.0
    ensures |runs| >= 2 && PairTotal(Grouped(runs)) > 0 ==>
      r == SameTotal(Grouped(runs)) as real / PairTotal(Grouped(runs)) as real
  {
    if |runs| < 2 then 0.0
    else
      var groups := Grouped(runs);
      var total := PairTotal(groups);
      SameWithinTotal(groups);
      RateInUnit(SameTotal(groups), total);
      if total == 0 then 0.0 else (SameTotal(groups) as real) / (total as real)
  }

  // ---------------------------------------------------------------------
  // Properties of the counts

  /** n choose 2. */
  function Choose2(n: nat): nat
  {
    if n == 0 then 0 else Choose2(n - 1) + (n - 1)
  }

  lemma {:induction false} RowsTotalCounts(n: nat, rows: nat)
    requires rows <= n
    ensures RowsTotal(n, rows) + Choose2(n - rows) == Choose2(n)
    decreases rows
  {
    if rows > 0 {
      RowsTotalCounts(n, rows - 1);
    }
  }

  /** A group of `n` sessions contributes every one of its n(n-1)/2 pairs. */
  lemma GroupTotalIsChoose2(ms: seq<SessionRun>)
    ensures GroupTotal(ms) == Choose2(|ms|)
  {
    RowsTotalCounts(|ms|, |ms|);
  }

  lemma {:induction false} SameInBound(ms: seq<SessionRun>, i: nat, hi: nat)
    requires i < |ms| && hi <= |ms|
    ensures SameIn(ms, i, hi) <= (if hi <= i + 1 then 0 else hi - i - 1)
    decreases hi
  {
    if hi > i + 1 {
      SameInBound(ms, i, hi - 1);
    }
  }

  lemma {:induction false} RowsBound(ms: seq<SessionRun>, rows: nat)
    requires rows <= |ms|
    ensures RowsSame(ms, rows) <= RowsTotal(|ms|, rows)
    decreases rows
  {
    if rows > 0 {
      RowsBound(ms, rows - 1);
      SameInBound(ms, rows - 1, |ms|);
    }
  }

  lemma {:induction false} SameWithinTotal(groups: Groups)
    ensures SameTotal(groups) <= PairTotal(groups)
    decreases |groups|
  {
    if groups != [] {
      SameWithinTotal(groups[..|groups| - 1]);
      var ms := groups[|groups| - 1].1;
      if |ms| >= 2 {
        RowsBound(ms, |ms|);
      }
    }
  }

  /** Sessions with the same corpus and seed all reproduce each other's outputs. */
  predicate Deterministic(runs: seq<SessionRun>)
  {
    forall i, j :: 0 <= i < |runs| && 0 <= j < |runs| && KeyOf(runs[i]) == KeyOf(runs[j]) ==>
      SameOutputs(runs[i].outputs, runs[j].outputs)
  }

  predicate AllSame(ms: seq<SessionRun>)
  {
    forall i, j :: 0 <= i < |ms| && 0 <= j < |ms| ==> SameOutputs(ms[i].outputs, ms[j].outputs)
  }

  lemma {:induction false} SameInAll(ms: seq<SessionRun>, i: nat, hi: nat)
    requires AllSame(ms) && i < |ms| && hi <= |ms|
    ensures SameIn(ms, i, hi) == (if hi <= i + 1 then 0 else hi - i - 1)
    decreases hi
  {
    if hi > i + 1 {
      SameInAll(ms, i, hi - 1);
    }
  }

  lemma {:induction false} RowsAll(ms: seq<SessionRun>, rows: nat)
    requires AllSame(ms) && rows <= |ms|
    ensures RowsSame(ms, rows) == RowsTotal(|ms|, rows)
    decreases rows
  {
    if rows > 0 {
      RowsAll(ms, rows - 1);
      SameInAll(ms, rows - 1, |ms|);
    }
  }

  lemma {:induction false} WithKeyMembers(runs: seq<SessionRun>, key: GroupKey)
    ensures forall m :: m in WithKey(runs, key) ==> m in runs && KeyOf(m) == key
    decreases |runs|
  {
    if runs != [] {
      WithKeyMembers(runs[..|runs| - 1], key);
    }
  }

  lemma {:induction false} SameTotalAll(groups: Groups, runs: seq<SessionRun>)
    requires Deterministic(runs)
    requires forall g :: 0 <= g < |groups| ==> groups[g].1 == WithKey(runs, groups[g].0)
    ensures SameTotal(groups) == PairTotal(groups)
    decreases |groups|
  {
    if groups != [] {
      var last := |groups| - 1;
      SameTotalAll(groups[..last], runs);
      var ms := groups[last].1;
      WithKeyMembers(runs, groups[last].0);
      assert AllSame(ms) by {
        forall i, j | 0 <= i < |ms| && 0 <= j < |ms| ensures SameOutputs(ms[i].outputs, ms[j].outputs) {
          assert ms[i] in runs && ms[j] in runs;
          var a :| 0 <= a < |runs| && runs[a] == ms[i];
          var b :| 0 <= b < |runs| && runs[b] == ms[j];
        }
      }
      if |ms| >= 2 {
        RowsAll(ms, |ms|);
      }
    }
  }

  /** When sessions with the same corpus and seed always agree, every compared pair is identical. */
  lemma {:induction false} DeterministicFullyReproducible(runs: seq<SessionRun>)
    requires Deterministic(runs)
    requires |runs| >= 2 && PairTotal(Grouped(runs)) > 0
    ensures Reproducibility(runs) == 1.0
  {
    var groups := Grouped(runs);
    assert SameTotal(groups) == PairTotal(groups) by {
      GroupedPartition(runs);
      SameTotalAll(groups, runs);
    }
    WholeRatio(SameTotal(groups), PairTotal(groups));
  }

  lemma WholeRatio(same: nat, total: nat)
    requires same == total && total > 0
    ensures (same as real) / (total as real) == 1.0
  {
  }

  /** The run `run_session` appends for one planned session. */
  function RunFor(entry: (string, seq<string>), reply: Responder, corpus: string, seed: Option<int>): SessionRun
  {
    SessionRun(entry.0, OutputsOf(entry.1, reply, entry.0), corpus, seed)
  }

  function RunsFor(plan: seq<(string, seq<string>)>, reply: Responder, corpus: string, seed: Option<int>): (r: seq<SessionRun>)
    ensures |r| == |plan|
  {
    if plan == [] then [] else RunsFor(plan[..|plan| - 1], reply, corpus, seed) + [RunFor(plan[|plan| - 1], reply, corpus, seed)]
  }

  lemma RunsForSnoc(plan: seq<(string, seq<string>)>, entry: (string, seq<string>), reply: Responder,
                    corpus: string, seed: Option<int>)
    ensures RunsFor(plan + [entry], reply, corpus, seed) == RunsFor(plan, reply, corpus, seed) + [RunFor(entry, reply, corpus, seed)]
  {
    assert (plan + [entry])[..|plan|] == plan;
  }

  lemma {:induction false} RunsForConcat(a: seq<(string, seq<string>)>, b: seq<(string, seq<string>)>,
                                        reply: Responder, corpus: string, seed: Option<int>)
    ensures RunsFor(a + b, reply, corpus, seed) == RunsFor(a, reply, corpus, seed) + RunsFor(b, reply, corpus, seed)
    decreases |b|
  {
    if b == [] {
      assert a + b == a;
    } else {
      var init := b[..|b| - 1];
      assert (a + b)[..|a + b| - 1] == a + init;
      assert (a + b)[|a + b| - 1] == b[|b| - 1];
      RunsForConcat(a, init, reply, corpus, seed);
    }
  }

  /** Appending in two steps is appending once. */
  lemma AppendAssoc<T>(a: seq<T>, b: seq<T>, c: seq<T>)
    ensures (a + b) + c == a + (b + c)
  {
  }

  // ---------------------------------------------------------------------
  // The runner

  class BatchRunner {
    const seed: Option<int>
    const corpus: string
    var sessionOutputs: seq<SessionRun>
    var allSessionsMetrics: seq<SessionRecord>

    /** `corpus or "default"`. */
    constructor(seed: Option<int>, corpus: Option<string>)
      ensures this.seed == seed
      ensures this.corpus == if corpus.Some? && corpus.value != "" then corpus.value else "default"
      ensures sessionOutputs == [] && allSessionsMetrics == []
    {
      this.seed := seed;
      this.corpus := if corpus.Some? && corpus.value != "" then corpus.value else "default";
      sessionOutputs := [];
      allSessionsMetrics := [];
    }

    /**
     * `run_session`: each response is stored truncated to 500 characters, and
     * exactly one entry is appended to each list.
     */
    method RunSession(queries: seq<string>, sessionId: Option<string>, clock: string,
                      reply: Responder, ended: string -> SessionEntry) returns (record: SessionRecord)
      modifies this
      ensures var id := BatchSessionId(sessionId, clock, |old(allSessionsMetrics)|);
        && record == SessionRecord(ended(id), id, corpus, seed, OutputsOf(queries, reply, id))
        && allSessionsMetrics == old(allSessionsMetrics) + [record]
        && sessionOutputs == old(sessionOutputs) + [SessionRun(id, record.outputs, corpus, seed)]
    {
      var id := BatchSessionId(sessionId, clock, |allSessionsMetrics|);
      var outputs: seq<Output> := [];
      for i := 0 to |queries|
        invariant outputs == OutputsOf(queries, reply, id)[..i]
      {
        var response := reply(id, queries[..i], queries[i]);
        outputs := outputs + [Output(queries[i], if |response| > 500 then response[..500] else response)];
      }
      record := SessionRecord(ended(id), id, corpus, seed, outputs);
      allSessionsMetrics := allSessionsMetrics + [record];
      sessionOutputs := sessionOutputs + [SessionRun(id, outputs, corpus, seed)];
    }

    /**
     * `run_multiple_sessions`: every query set once per round, round after
     * round, each under its `session_<round>_<set>` id.
     */
    method RunMultipleSessions(queriesList: seq<seq<string>>, rounds: nat, clock: string,
                               reply: Responder, ended: string -> SessionEntry) returns (all: seq<SessionRecord>)
      modifies this
      ensures sessionOutputs == old(sessionOutputs) + RunsFor(Plan(queriesList, rounds), reply, corpus, seed)
      ensures |all| == |Plan(queriesList, rounds)|
      ensures allSessionsMetrics == old(allSessionsMetrics) + all
    {
      all := [];
      for round := 0 to rounds
        invariant sessionOutputs == old(sessionOutputs) + RunsFor(Plan(queriesList, round), reply, corpus, seed)
        invariant |all| == |Plan(queriesList, round)|
        invariant allSessionsMetrics == old(allSessionsMetrics) + all
      {
        ghost var before := Plan(queriesList, round);
        ghost var planned := Round(queriesList, round);
        ghost var outputsBefore := sessionOutputs;
        ghost var metricsBefore := allSessionsMetrics;
        var records := RunRound(queriesList, round, clock, reply, ended);
        assert Plan(queriesList, round + 1) == before + planned;
        RunsForConcat(before, planned, reply, corpus, seed);
        AppendAssoc(old(sessionOutputs), RunsFor(before, reply, corpus, seed), RunsFor(planned, reply, corpus, seed));
        AppendAssoc(old(allSessionsMetrics), all, records);
        all := all + records;
      }
    }

    /** One round of `run_multiple_sessions`: each query set in order. */
    method RunRound(queriesList: seq<seq<string>>, round: nat, clock: string,
                    reply: Responder, ended: string -> SessionEntry) returns (records: seq<SessionRecord>)
      modifies this
      ensures sessionOutputs == old(sessionOutputs) + RunsFor(Round(queriesList, round), reply, corpus, seed)
      ensures |records| == |queriesList|
      ensures allSessionsMetrics == old(allSessionsMetrics) + records
    {
      records := [];
      var planned := Round(queriesList, round);
      for slot := 0 to |queriesList|
        invariant sessionOutputs == old(sessionOutputs) + RunsFor(planned[..slot], reply, corpus, seed)
        invariant |records| == slot
        invariant allSessionsMetrics == old(allSessionsMetrics) + records
      {
        var record := RunSession(queriesList[slot], Some(SessionName(round, slot)), clock, reply, ended);
        assert planned[..slot + 1] == planned[..slot] + [planned[slot]];
        RunsForSnoc(planned[..slot], planned[slot], reply, corpus, seed);
        AppendAssoc(old(sessionOutputs), RunsFor(planned[..slot], reply, corpus, seed), [RunFor(planned[slot], reply, corpus, seed)]);
        AppendAssoc(old(allSessionsMetrics), records, [record]);
        records := records + [record];
      }
      assert planned[..|queriesList|] == planned;
    }

    /** `calculate_reproducibility`, with its grouping loop and its pairwise comparison loops. */
    method CalculateReproducibility() returns (rate: real)
      ensures rate == Reproducibility(sessionOutputs)
    {
      var runs := sessionOutputs;
      if |runs| < 2 {
        return 0.0;
      }
      var groups: Groups := [];
      for i := 0 to |runs|
        invariant groups == Grouped(runs[..i])
      {
        assert runs[..i + 1][..i] == runs[..i];
        var key := KeyOf(runs[i]);
        var found := Find(groups, key);
        if found.None? {
          groups := groups + [(key, [runs[i]])];
        } else {
          groups := groups[found.value := (key, groups[found.value].1 + [runs[i]])];
        }
      }
      assert runs[..|runs|] == runs;
      var reproducible, total := CountPairs(groups);
      if total == 0 {
        return 0.0;
      }
      rate := (reproducible as real) / (total as real);
    }

    /** The comparison loops over each group of at least two sessions. */
    method CountPairs(groups: Groups) returns (reproducible: nat, total: nat)
      ensures reproducible == SameTotal(groups) && total == PairTotal(groups)
    {
      reproducible, total := 0, 0;
      for g := 0 to |groups|
        invariant reproducible == SameTotal(groups[..g]) && total == PairTotal(groups[..g])
      {
        assert groups[..g + 1][..g] == groups[..g];
        var ms := groups[g].1;
        if |ms| < 2 {
          continue;
        }
        for i := 0 to |ms|
          invariant reproducible == SameTotal(groups[..g]) + RowsSame(ms, i)
          invariant total == PairTotal(groups[..g]) + RowsTotal(|ms|, i)
        {
          for j := i + 1 to |ms|
            invariant reproducible == SameTotal(groups[..g]) + RowsSame(ms, i) + SameIn(ms, i, j)
            invariant total == PairTotal(groups[..g]) + RowsTotal(|ms|, i) + (j - i - 1)
          {
            total := total + 1;
            var same := OutputsIdentical(ms[i].outputs, ms[j].outputs);
            if same {
              reproducible := reproducible + 1;
            }
          }
        }
      }
      assert groups[..|groups|] == groups;
    }
  }

  /** The plan has one entry per round and query slot, round-major. */
  lemma {:induction false} PlanOrder(queriesList: seq<seq<string>>, rounds: nat, round: nat, slot: nat)
    requires round < rounds && slot < |queriesList|
    ensures |Plan(queriesList, rounds)| == rounds * |queriesList|
    ensures round * |queriesList| + slot < |Plan(queriesList, rounds)|
    ensures Plan(queriesList, rounds)[round * |queriesList| + slot] == (SessionName(round, slot), queriesList[slot])
    decreases rounds
  {
    var n := |queriesList|;
    PlanLength(queriesList, rounds - 1);
    assert rounds * n == (rounds - 1) * n + n;
    if round < rounds - 1 {
      PlanOrder(queriesList, rounds - 1, round, slot);
    } else {
      assert round * n == (rounds - 1) * n;
    }
  }

  lemma {:induction false} PlanLength(queriesList: seq<seq<string>>, rounds: nat)
    ensures |Plan(queriesList, rounds)| == rounds * |queriesList|
    decreases rounds
  {
    if rounds > 0 {
      PlanLength(queriesList, rounds - 1);
      assert rounds * |queriesList| == (rounds - 1) * |queriesList| + |queriesList|;
    }
  }
}
