/**
 * The ledger of an ensemble (EnsembleMetrics in basemetrics.py): the
 * ensemble's own ledger, plus one nested ledger per member, created the
 * first time the member is seen and keyed by the member's name, and the
 * per-member predictions.
 *
 * A training-step tuple of an ensemble is laid out as the ensemble's own
 * part (error, cost, sub-costs, scores) followed, for each member in list
 * order, by the member's cost, its n_costs sub-costs and its n_scores
 * scores.
 */
module Ensembles {
  import opened Wrappers
  import opened Plots
  import opened Channels
  import opened Metrics

  /** The state of an EnsembleMetrics object, as a value. */
  datatype EnsembleLedger = EnsembleLedger(
    base: Ledger,
    members: seq<ModelInfo>,
    subs: map<string, Ledger>,
    yTruePerModel: seq<seq<real>>,
    yPredPerModel: map<string, seq<seq<real>>>)
  {
    /** The ensemble's own ledger and every member ledger are well formed. */
    ghost predicate Valid()
    {
      base.Valid() && AllValid(subs)
    }
  }

  /** Every ledger of the map is well formed. */
  ghost predicate AllValid(subs: map<string, Ledger>)
  {
    forall x :: x in subs ==> subs[x].Valid()
  }

  /** A freshly constructed EnsembleMetrics: no member ledger, no prediction. */
  function NewEnsemble(model: ModelInfo, members: seq<ModelInfo>): (e: EnsembleLedger)
    ensures e.Valid()
    ensures e.base == NewLedger(model) && e.members == members
    ensures e.subs == map[] && e.yTruePerModel == [] && e.yPredPerModel == map[]
  {
    EnsembleLedger(NewLedger(model), members, map[], [], map[])
  }

  /** The number of tuple positions one member reads: cost, sub-costs, scores. */
  function MemberWidth(m: ModelInfo): nat
  {
    1 + m.nCosts + m.nScores
  }

  /** The last position read once the first k members are done, starting after position n0. */
  function Offset(members: seq<ModelInfo>, k: nat, n0: nat): nat
    requires k <= |members|
  {
    if k == 0 then n0 else Offset(members, k - 1, n0) + MemberWidth(members[k - 1])
  }

  /** Member windows follow one another: later members read later positions. */
  lemma {:induction false} OffsetMonotone(members: seq<ModelInfo>, j: nat, k: nat, n0: nat)
    requires j <= k <= |members|
    ensures n0 <= Offset(members, j, n0) <= Offset(members, k, n0)
    ensures j < k ==> Offset(members, j, n0) + MemberWidth(members[j]) <= Offset(members, k, n0)
  {
    if j < k {
      OffsetMonotone(members, j, k - 1, n0);
    } else if j > 0 {
      OffsetMonotone(members, j - 1, j, n0);
    }
  }

  /** The ledger a member's data goes to: the one already kept for it, or a fresh one. */
  function LedgerOrNew(prev: Option<Ledger>, m: ModelInfo): Ledger
  {
    if prev.Some? then prev.value else NewLedger(m)
  }

  /**
   * What append_data's member loop reads besides the ledgers: the members,
   * the split, the ensemble's labels, the tuple, the epoch and the position
   * n0 after which member data starts.
   */
  datatype MemberLoop = MemberLoop(members: seq<ModelInfo>, s: Split, labels: seq<string>, data: seq<real>, epoch: real, n0: nat)
  {
    /** The windows of the first k members lie inside the tuple. */
    predicate Fits(k: nat)
    {
      k <= |members| && Offset(members, k, n0) < |data| && Offset(members, k, n0) < |labels|
    }

    /** The position of member j's cost: the one after the windows of the members before it. */
    function Start(j: nat): nat
      requires j <= |members|
    {
      Offset(members, j, n0) + 1
    }
  }

  /**
   * Member j's part of the tuple on its ledger (prev, or a fresh one when
   * the member has none yet): the value at its start position onto its
   * cost list, then add_data for its n_costs sub-costs and for its n_scores
   * scores, keyed by the ensemble's labels. The cost list gains exactly one
   * point (epoch, the value at the start position); the error list, the
   * other split, the model and the predictions are untouched.
   */
  function MemberLedger(c: MemberLoop, prev: Option<Ledger>, j: nat): (r: Ledger)
    requires j < |c.members| && c.Fits(j + 1)
    ensures c.Start(j) < |c.data| && c.Start(j) < |c.labels|
    ensures var l := LedgerOrNew(prev, c.members[j]);
            r.model == l.model && r.error == l.error && r.yPred == l.yPred && r.yTrue == l.yTrue &&
            r.cost.Get(c.s) == Extended(l.cost.Get(c.s), [c.epoch], [c.data[c.Start(j)]], c.labels[c.Start(j)], c.members[j].name) &&
            forall o: Split :: o != c.s ==> r.cost.Get(o) == l.cost.Get(o) && r.costs.Get(o) == l.costs.Get(o) &&
                                            r.scores.Get(o) == l.scores.Get(o)
  {
    var m, l, i := c.members[j], LedgerOrNew(prev, c.members[j]), c.Start(j);
    AddPointToIsExtended(l.cost.Get(c.s), c.epoch, c.data[i], c.labels[i], m.name);
    WithParts(l, c.s, AddPointTo(l.cost.Get(c.s), c.epoch, c.data[i], c.labels[i], m.name),
              RecordAfter(l.costs.Get(c.s), c.labels, c.data, m.name, c.epoch, i, m.nCosts),
              RecordAfter(l.scores.Get(c.s), c.labels, c.data, m.name, c.epoch, i + m.nCosts, m.nScores))
  }

  /** A ledger whose cost list, costs and scores on split s are replaced. */
  function WithParts(l: Ledger, s: Split, c: seq<PlotData>, ch: Channels, sc: Channels): Ledger
  {
    l.(cost := l.cost.Set(s, c), costs := l.costs.Set(s, ch), scores := l.scores.Set(s, sc))
  }

  /**
   * Under every label k, member j's sub-costs on the split gain the values
   * of its sub-cost window that carry label k, in order, each at the epoch.
   */
  lemma MemberLedgerCosts(c: MemberLoop, p: Option<Ledger>, j: nat, l: Ledger, k: string, lo: nat)
    requires j < |c.members| && c.Fits(j + 1) && l == LedgerOrNew(p, c.members[j])
    requires lo == c.Start(j) + 1
    ensures lo + c.members[j].nCosts <= |c.data| && lo + c.members[j].nCosts <= |c.labels|
    ensures MemberLedger(c, p, j).costs.Get(c.s).Get(k)
         == Extended(l.costs.Get(c.s).Get(k), Repeat(c.epoch, |Hits(c.labels, c.data, lo, lo + c.members[j].nCosts, k)|),
                     Hits(c.labels, c.data, lo, lo + c.members[j].nCosts, k), k, c.members[j].name)
  {
    var m, i, ch := c.members[j], c.Start(j), l.costs.Get(c.s);
    var after := RecordAfter(ch, c.labels, c.data, m.name, c.epoch, i, m.nCosts);
    assert MemberLedger(c, p, j).costs.Get(c.s) == after;
    RecordAfterGet(ch, c.labels, c.data, m.name, c.epoch, i, m.nCosts, k, lo, lo + m.nCosts);
  }

  /**
   * Under every label k, member j's scores on the split gain the values of
   * its score window (after its sub-costs) that carry label k.
   */
  lemma MemberLedgerScores(c: MemberLoop, p: Option<Ledger>, j: nat, l: Ledger, k: string, lo: nat)
    requires j < |c.members| && c.Fits(j + 1) && l == LedgerOrNew(p, c.members[j])
    requires lo == c.Start(j) + c.members[j].nCosts + 1
    ensures lo + c.members[j].nScores <= |c.data| && lo + c.members[j].nScores <= |c.labels|
    ensures MemberLedger(c, p, j).scores.Get(c.s).Get(k)
         == Extended(l.scores.Get(c.s).Get(k), Repeat(c.epoch, |Hits(c.labels, c.data, lo, lo + c.members[j].nScores, k)|),
                     Hits(c.labels, c.data, lo, lo + c.members[j].nScores, k), k, c.members[j].name)
  {
    var m, i, ch := c.members[j], c.Start(j), l.scores.Get(c.s);
    MemberScoresPart(c, p, j, l);
    RecordAfterGet(ch, c.labels, c.data, m.name, c.epoch, i + m.nCosts, m.nScores, k, lo, lo + m.nScores);
  }

  /** Member j's scores on the split are add_data on the window after its sub-costs. */
  lemma MemberScoresPart(c: MemberLoop, p: Option<Ledger>, j: nat, l: Ledger)
    requires j < |c.members| && c.Fits(j + 1) && l == LedgerOrNew(p, c.members[j])
    ensures c.Start(j) + c.members[j].nCosts + c.members[j].nScores < |c.labels|
    ensures c.Start(j) + c.members[j].nCosts + c.members[j].nScores < |c.data|
    ensures MemberLedger(c, p, j).scores.Get(c.s) ==
            RecordAfter(l.scores.Get(c.s), c.labels, c.data, c.members[j].name, c.epoch, c.Start(j) + c.members[j].nCosts, c.members[j].nScores)
  {
  }

  /** A member's part of the tuple keeps its ledger well formed. */
  lemma MemberLedgerValid(c: MemberLoop, p: Option<Ledger>, j: nat, l: Ledger)
    requires j < |c.members| && c.Fits(j + 1) && l == LedgerOrNew(p, c.members[j])
    requires l.Valid()
    ensures MemberLedger(c, p, j).Valid()
  {
    MemberSplitValid(c, p, j, l);
    var o := if c.s == Train then Test else Train;
    MemberOtherSplitValid(c, p, j, l, o);
  }

  lemma MemberSplitValid(c: MemberLoop, p: Option<Ledger>, j: nat, l: Ledger)
    requires j < |c.members| && c.Fits(j + 1) && l == LedgerOrNew(p, c.members[j])
    requires l.SplitValid(c.s)
    ensures MemberLedger(c, p, j).SplitValid(c.s)
  {
    MemberCostValid(c, p, j, l);
    MemberCostsValid(c, p, j, l);
    MemberScoresValid(c, p, j, l);
  }

  lemma MemberCostValid(c: MemberLoop, p: Option<Ledger>, j: nat, l: Ledger)
    requires j < |c.members| && c.Fits(j + 1) && l == LedgerOrNew(p, c.members[j])
    requires AllAligned(l.cost.Get(c.s))
    ensures AllAligned(MemberLedger(c, p, j).cost.Get(c.s))
  {
    var i := c.Start(j);
    AddPointToAligned(l.cost.Get(c.s), c.epoch, c.data[i], c.labels[i], c.members[j].name);
  }

  lemma MemberCostsValid(c: MemberLoop, p: Option<Ledger>, j: nat, l: Ledger)
    requires j < |c.members| && c.Fits(j + 1) && l == LedgerOrNew(p, c.members[j])
    requires l.costs.Get(c.s).Valid() && l.costs.Get(c.s).AllAlignedIn()
    ensures MemberLedger(c, p, j).costs.Get(c.s).Valid()
    ensures MemberLedger(c, p, j).costs.Get(c.s).AllAlignedIn()
  {
    var i := c.Start(j);
    WindowValid(l.costs.Get(c.s), c.labels, c.data, c.members[j].name, c.epoch, i + 1, i + 1 + c.members[j].nCosts,
                MemberLedger(c, p, j).costs.Get(c.s));
  }

  lemma MemberScoresValid(c: MemberLoop, p: Option<Ledger>, j: nat, l: Ledger)
    requires j < |c.members| && c.Fits(j + 1) && l == LedgerOrNew(p, c.members[j])
    requires l.scores.Get(c.s).Valid() && l.scores.Get(c.s).AllAlignedIn()
    ensures MemberLedger(c, p, j).scores.Get(c.s).Valid()
    ensures MemberLedger(c, p, j).scores.Get(c.s).AllAlignedIn()
  {
    var i := c.Start(j) + c.members[j].nCosts;
    WindowValid(l.scores.Get(c.s), c.labels, c.data, c.members[j].name, c.epoch, i + 1, i + 1 + c.members[j].nScores,
                MemberLedger(c, p, j).scores.Get(c.s));
  }

  lemma MemberOtherSplitValid(c: MemberLoop, p: Option<Ledger>, j: nat, l: Ledger, o: Split)
    requires j < |c.members| && c.Fits(j + 1) && l == LedgerOrNew(p, c.members[j])
    requires o != c.s && l.SplitValid(o)
    ensures MemberLedger(c, p, j).SplitValid(o)
  {
  }

  lemma WindowValid(ch: Channels, labels: seq<string>, data: seq<real>, name: string, epoch: real, lo: nat, hi: nat, r: Channels)
    requires lo <= hi <= |labels| && hi <= |data|
    requires ch.Valid() && ch.AllAlignedIn()
    requires r == RecordRange(ch, labels, data, name, epoch, lo, hi)
    ensures r.Valid() && r.AllAlignedIn()
  {
    RecordRangeValid(ch, labels, data, name, epoch, lo, hi);
    RecordRangeAligned(ch, labels, data, name, epoch, lo, hi);
  }

  /** The entry under x, if there is one. */
  function Find<T>(m: map<string, T>, x: string): (r: Option<T>)
    ensures r.Some? <==> x in m
    ensures x in m ==> r.value == m[x]
  {
    if x in m then Some(m[x]) else None
  }

  /**
   * A loop over the first k names, in order, that sets the entry under
   * names[j] to f(c, the entry it had, j): the shape of the member loops of
   * append_data and append_prediction_per_model, where an absent entry is
   * created on first use.
   */
  function FoldNames<C, T(!new)>(m: map<string, T>, names: seq<string>, k: nat, f: (C, Option<T>, nat) --> T, c: C): map<string, T>
    requires k <= |names|
    requires forall p: Option<T>, j: nat :: j < k ==> f.requires(c, p, j)
  {
    if k == 0 then m
    else
      var acc := FoldNames(m, names, k - 1, f, c);
      acc[names[k - 1] := f(c, Find(acc, names[k - 1]), k - 1)]
  }

  /** No two names are equal. */
  predicate Unique(names: seq<string>)
  {
    forall a, b :: 0 <= a < b < |names| ==> names[a] != names[b]
  }

  /** One more name: its entry, looked up in the loop so far, goes through f. */
  lemma FoldNamesNext<C, T(!new)>(m: map<string, T>, names: seq<string>, k: nat, f: (C, Option<T>, nat) --> T, c: C,
                                  acc: map<string, T>, v: T)
    requires k < |names|
    requires forall p: Option<T>, j: nat :: j < k + 1 ==> f.requires(c, p, j)
    requires acc == FoldNames(m, names, k, f, c) && v == f(c, Find(acc, names[k]), k)
    ensures acc[names[k] := v] == FoldNames(m, names, k + 1, f, c)
  {
  }

  /** The loop gives an entry to every name it visits, and to no other. */
  lemma {:induction false} FoldNamesKeys<C, T(!new)>(m: map<string, T>, names: seq<string>, k: nat, f: (C, Option<T>, nat) --> T, c: C)
    requires k <= |names|
    requires forall p: Option<T>, j: nat :: j < k ==> f.requires(c, p, j)
    ensures FoldNames(m, names, k, f, c).Keys == m.Keys + (set j | 0 <= j < k :: names[j])
  {
    if k > 0 {
      FoldNamesKeys(m, names, k - 1, f, c);
      assert (set j | 0 <= j < k :: names[j]) == (set j | 0 <= j < k - 1 :: names[j]) + {names[k - 1]};
    }
  }

  /** An entry whose name the loop does not visit is left as it was. */
  lemma {:induction false} FoldNamesOther<C, T(!new)>(m: map<string, T>, names: seq<string>, k: nat, f: (C, Option<T>, nat) --> T, c: C, x: string)
    requires k <= |names|
    requires forall p: Option<T>, j: nat :: j < k ==> f.requires(c, p, j)
    requires forall j :: 0 <= j < k ==> names[j] != x
    ensures Find(FoldNames(m, names, k, f, c), x) == Find(m, x)
  {
    if k > 0 {
      FoldNamesOther(m, names, k - 1, f, c, x);
    }
  }

  /** Every entry whose name the loop does not visit is left as it was. */
  lemma FoldNamesOthers<C, T(!new)>(m: map<string, T>, names: seq<string>, k: nat, f: (C, Option<T>, nat) --> T, c: C)
    requires k <= |names|
    requires forall p: Option<T>, j: nat :: j < k ==> f.requires(c, p, j)
    ensures forall x :: (forall j :: 0 <= j < k ==> names[j] != x) ==> Find(FoldNames(m, names, k, f, c), x) == Find(m, x)
  {
    forall x | forall j :: 0 <= j < k ==> names[j] != x
      ensures Find(FoldNames(m, names, k, f, c), x) == Find(m, x)
    {
      FoldNamesOther(m, names, k, f, c, x);
    }
  }

  /** With unique names, the entry under names[j] is f applied once, to its entry before the loop. */
  lemma {:induction false} FoldNamesAt<C, T(!new)>(m: map<string, T>, names: seq<string>, k: nat, f: (C, Option<T>, nat) --> T, c: C, j: nat)
    requires j < k <= |names| && Unique(names)
    requires forall p: Option<T>, i: nat :: i < k ==> f.requires(c, p, i)
    ensures var r := FoldNames(m, names, k, f, c);
            names[j] in r && r[names[j]] == f(c, Find(m, names[j]), j)
  {
    if j < k - 1 {
      FoldNamesAt(m, names, k - 1, f, c, j);
      assert names[k - 1] != names[j];
    } else {
      FoldNamesOther(m, names, j, f, c, names[j]);
    }
  }

  /** A property of entries that f preserves (and creates) holds of every entry after the loop. */
  lemma {:induction false} FoldNamesInvariant<C, T(!new)>(m: map<string, T>, names: seq<string>, k: nat, f: (C, Option<T>, nat) --> T, c: C,
                                                 P: T -> bool)
    requires k <= |names|
    requires forall p: Option<T>, j: nat :: j < k ==> f.requires(c, p, j)
    requires forall x :: x in m ==> P(m[x])
    requires forall p: Option<T>, j: nat :: j < k && (p.Some? ==> P(p.value)) ==> P(f(c, p, j))
    ensures forall x :: x in FoldNames(m, names, k, f, c) ==> P(FoldNames(m, names, k, f, c)[x])
  {
    if k > 0 {
      var acc := FoldNames(m, names, k - 1, f, c);
      FoldNamesInvariant(m, names, k - 1, f, c, P);
      var p := Find(acc, names[k - 1]);
      assert P(f(c, p, k - 1));
    }
  }

  /** The members' names, in list order. */
  function Names(members: seq<ModelInfo>): (names: seq<string>)
    ensures |names| == |members|
    ensures forall j :: 0 <= j < |members| ==> names[j] == members[j].name
  {
    seq(|members|, j requires 0 <= j < |members| => members[j].name)
  }


  /** Every member window before member k lies inside the tuple once member k's does. */
  lemma MemberLedgerDefined(c: MemberLoop, k: nat)
    requires c.Fits(k)
    ensures forall p: Option<Ledger>, j: nat :: j < k ==> MemberLedger.requires(c, p, j)
  {
    forall p: Option<Ledger>, j: nat | j < k
      ensures MemberLedger.requires(c, p, j)
    {
      OffsetMonotone(c.members, j + 1, k, c.n0);
      assert j < |c.members| && c.Fits(j + 1);
    }
  }

  /**
   * The member loop of append_data over the first k members: each of them
   * has a ledger afterwards, and no other new name does.
   */
  function MembersUpTo(subs: map<string, Ledger>, c: MemberLoop, k: nat): (r: map<string, Ledger>)
    requires c.Fits(k)
    ensures subs.Keys <= r.Keys && forall j :: 0 <= j < k ==> c.members[j].name in r
  {
    MemberLedgerDefined(c, k);
    FoldNamesKeys(subs, Names(c.members), k, MemberLedger, c);
    FoldNames(subs, Names(c.members), k, MemberLedger, c)
  }

  /**
   * With distinct member names, the member loop leaves under member j's
   * name exactly member j's window applied to the ledger the member had
   * before the loop, or to a fresh one.
   */
  lemma MembersAt(subs: map<string, Ledger>, c: MemberLoop, j: nat)
    requires c.Fits(|c.members|) && j < |c.members| && Unique(Names(c.members))
    ensures c.Fits(j + 1)
    ensures c.members[j].name in MembersUpTo(subs, c, |c.members|)
    ensures MembersUpTo(subs, c, |c.members|)[c.members[j].name] == MemberLedger(c, Find(subs, c.members[j].name), j)
  {
    OffsetMonotone(c.members, j + 1, |c.members|, c.n0);
    MemberLedgerDefined(c, |c.members|);
    FoldNamesAt(subs, Names(c.members), |c.members|, MemberLedger, c, j);
  }

  /** The member loop keeps every ledger well formed. */
  lemma MembersValid(subs: map<string, Ledger>, c: MemberLoop)
    requires c.Fits(|c.members|) && AllValid(subs)
    ensures AllValid(MembersUpTo(subs, c, |c.members|))
  {
    MemberLedgerDefined(c, |c.members|);
    forall p: Option<Ledger>, j: nat | j < |c.members| && c.Fits(j + 1) && (p.Some? ==> p.value.Valid())
      ensures MemberLedger(c, p, j).Valid()
    {
      MemberLedgerValid(c, p, j, LedgerOrNew(p, c.members[j]));
    }
    FoldNamesInvariant(subs, Names(c.members), |c.members|, MemberLedger, c, (l: Ledger) => l.Valid());
  }

  /**
   * The member loop gives a ledger to every member and to no other new
   * name, and leaves alone a ledger whose name no member carries.
   */
  lemma {:induction false} MembersKeys(subs: map<string, Ledger>, c: MemberLoop)
    requires c.Fits(|c.members|)
    ensures MembersUpTo(subs, c, |c.members|).Keys == subs.Keys + (set j | 0 <= j < |c.members| :: c.members[j].name)
    ensures forall x :: (forall j :: 0 <= j < |c.members| ==> c.members[j].name != x) ==>
                        Find(MembersUpTo(subs, c, |c.members|), x) == Find(subs, x)
  {
    var names := Names(c.members);
    MemberLedgerDefined(c, |c.members|);
    FoldNamesKeys(subs, names, |c.members|, MemberLedger, c);
    NameSet(c.members);
    FoldNamesOthers(subs, names, |c.members|, MemberLedger, c);
    forall x | forall j :: 0 <= j < |c.members| ==> c.members[j].name != x
      ensures Find(MembersUpTo(subs, c, |c.members|), x) == Find(subs, x)
    {
      assert forall j :: 0 <= j < |names| ==> names[j] != x;
    }
  }

  /** The names of the members, as a set. */
  lemma NameSet(members: seq<ModelInfo>)
    ensures (set j | 0 <= j < |members| :: Names(members)[j]) == (set j | 0 <= j < |members| :: members[j].name)
  {
    var names := Names(members);
    var fromNames, fromMembers := (set j | 0 <= j < |members| :: names[j]), (set j | 0 <= j < |members| :: members[j].name);
    forall x | x in fromNames
      ensures x in fromMembers
    {
      var j :| 0 <= j < |members| && names[j] == x;
      assert members[j].name == x;
    }
    forall x | x in fromMembers
      ensures x in fromNames
    {
      var j :| 0 <= j < |members| && members[j].name == x;
      assert names[j] == x;
    }
  }


  /**
   * Whether the tuple carries member data after position n, as the guard
   * of EnsembleMetrics.append_data evidently intends: position n + 1 exists.
   */
  predicate HasMemberData(data: seq<real>, n: nat)
  {
    |data| > n + 1
  }

  /** The guard of EnsembleMetrics.append_data as written. */
  predicate GuardAsWritten(data: seq<real>, n: nat)
  {
    |data| > n
  }

  /**
   * As written, the guard holds for every tuple the ensemble's own part can
   * be read from, including a tuple with no member data, whose first member
   * read (position n + 1) is then out of range.
   */
  lemma GuardAsWrittenNeverSkips(m: ModelInfo, data: seq<real>)
    requires StepWidth(m) <= |data|
    ensures GuardAsWritten(data, StepWidth(m) - 1)
    ensures |data| == StepWidth(m) ==> !(StepWidth(m) - 1 + 1 < |data|)
  {
  }

  /**
   * A concrete ensemble and tuple that the written guard lets into the
   * member loop: an ensemble with one cost, no scores and one member, and a
   * tuple holding only the ensemble's error and cost. The first member's
   * read position is the tuple's length, so its window does not fit and
   * MemberLedger's precondition fails (the source raises IndexError there),
   * while the corrected guard skips the loop.
   */
  lemma GuardAsWrittenCounterexample()
    ensures var m := ModelInfo("ensemble", ["error", "cost"], 1, 0, false);
            var member := ModelInfo("member", ["cost"], 1, 0, false);
            var e := NewEnsemble(m, [member]);
            var data := [0.5, 0.25];
            var c := MemberInputs(e, Train, data, 0.0);
            StepWidth(m) == |data| && |e.members| == 1 &&
            GuardAsWritten(data, BaseLast(e)) &&
            c.Start(0) == |data| && !c.Fits(1) &&
            !HasMemberData(data, BaseLast(e))
  {
    var m := ModelInfo("ensemble", ["error", "cost"], 1, 0, false);
    var member := ModelInfo("member", ["cost"], 1, 0, false);
    var e := NewEnsemble(m, [member]);
    var c := MemberInputs(e, Train, [0.5, 0.25], 0.0);
    assert StepWidth(m) == 2;
    assert BaseLast(e) == 1;
    assert Offset(c.members, 1, c.n0) == 3;
  }

  /**
   * After the ensemble's own part, the intended guard enters the member loop
   * exactly when the tuple is longer than that part, and it is stricter than
   * the guard as written, which differs from it only on the tuple of exactly
   * that length.
   */
  lemma HasMemberDataIff(m: ModelInfo, data: seq<real>)
    requires StepWidth(m) <= |data|
    ensures HasMemberData(data, StepWidth(m) - 1) <==> StepWidth(m) < |data|
    ensures HasMemberData(data, StepWidth(m) - 1) ==> GuardAsWritten(data, StepWidth(m) - 1)
    ensures GuardAsWritten(data, StepWidth(m) - 1) && !HasMemberData(data, StepWidth(m) - 1) <==> |data| == StepWidth(m)
  {
  }

  /** The last position the ensemble's own part reads. */
  function BaseLast(e: EnsembleLedger): nat
  {
    StepWidth(e.base.model) - 1
  }

  /** The last position the whole tuple occupies, members included. */
  function TotalLast(e: EnsembleLedger): nat
  {
    Offset(e.members, |e.members|, BaseLast(e))
  }

  /**
   * What append_data reads must exist: the ensemble's own part always, and
   * every member window whenever the tuple carries member data.
   */
  predicate CanAppend(e: EnsembleLedger, data: seq<real>)
  {
    var labels := e.base.model.resultLabels;
    StepWidth(e.base.model) <= |data| && StepWidth(e.base.model) <= |labels| &&
    (HasMemberData(data, BaseLast(e)) ==> TotalLast(e) < |data| && TotalLast(e) < |labels|)
  }

  /** What the member loop of append_data reads from the ensemble and the tuple. */
  function MemberInputs(e: EnsembleLedger, s: Split, data: seq<real>, epoch: real): MemberLoop
  {
    MemberLoop(e.members, s, e.base.model.resultLabels, data, epoch, BaseLast(e))
  }

  /**
   * EnsembleMetrics.append_data on a known split: the ensemble's own part,
   * then the member ledgers' part. The members and the predictions are
   * untouched; no member ledger is dropped; with member data every member
   * has a ledger afterwards, and without it the member ledgers stay as they
   * were.
   */
  function EnsembleAppendStep(e: EnsembleLedger, s: Split, data: seq<real>, epoch: real): (r: EnsembleLedger)
    requires CanAppend(e, data)
    ensures r.members == e.members && r.yTruePerModel == e.yTruePerModel && r.yPredPerModel == e.yPredPerModel
    ensures r.base.model == e.base.model && e.subs.Keys <= r.subs.Keys
    ensures HasMemberData(data, BaseLast(e)) ==> forall j :: 0 <= j < |e.members| ==> e.members[j].name in r.subs
    ensures !HasMemberData(data, BaseLast(e)) ==> r.subs == e.subs
  {
    e.(base := AppendStep(e.base, s, data, epoch), subs := MembersAfter(e, s, data, epoch))
  }

  /**
   * The member ledgers after append_data: when the tuple carries member
   * data, every member's window onto the member's ledger; otherwise as
   * they were.
   */
  function MembersAfter(e: EnsembleLedger, s: Split, data: seq<real>, epoch: real): map<string, Ledger>
    requires CanAppend(e, data)
  {
    if HasMemberData(data, BaseLast(e))
    then MembersUpTo(e.subs, MemberInputs(e, s, data, epoch), |e.members|)
    else e.subs
  }

  /** A ledger whose two changed parts are those of EnsembleAppendStep is its result. */
  lemma EnsembleAppendStepIs(e: EnsembleLedger, s: Split, data: seq<real>, epoch: real, b: Ledger, subs: map<string, Ledger>)
    requires CanAppend(e, data)
    requires b == AppendStep(e.base, s, data, epoch)
    requires subs == MembersAfter(e, s, data, epoch)
    ensures e.(base := b, subs := subs) == EnsembleAppendStep(e, s, data, epoch)
  {
  }

  /** The index append_data returns: the last position it read. */
  function LastRead(e: EnsembleLedger, data: seq<real>): nat
  {
    if HasMemberData(data, BaseLast(e)) then TotalLast(e) else BaseLast(e)
  }

  /**
   * A tuple holding only the ensemble's own part is accepted, and it leaves
   * every member ledger alone.
   */
  lemma BaseOnlyTuple(e: EnsembleLedger, s: Split, data: seq<real>, epoch: real)
    requires |data| == StepWidth(e.base.model) <= |e.base.model.resultLabels|
    ensures CanAppend(e, data)
    ensures MembersAfter(e, s, data, epoch) == e.subs
    ensures LastRead(e, data) == |data| - 1
  {
  }

  /** append_data keeps the ensemble's ledgers well formed. */
  lemma EnsembleAppendStepValid(e: EnsembleLedger, s: Split, data: seq<real>, epoch: real)
    requires CanAppend(e, data) && e.Valid()
    ensures EnsembleAppendStep(e, s, data, epoch).Valid()
  {
    AppendStepValid(e.base, s, data, epoch);
    if HasMemberData(data, BaseLast(e)) {
      MembersValid(e.subs, MemberInputs(e, s, data, epoch));
    }
  }

  /** The body of append_prediction_per_model's loop for member j: its output joins its list. */
  function PredictionAppend(outputs: seq<seq<real>>, prev: Option<seq<seq<real>>>, j: nat): seq<seq<real>>
    requires j < |outputs|
  {
    (if prev.Some? then prev.value else []) + [outputs[j]]
  }

  /**
   * The prediction lists after append_prediction_per_model, given each
   * member's output: every member has a list, and no list is dropped.
   */
  function PredictionsAdded(preds: map<string, seq<seq<real>>>, members: seq<ModelInfo>, outputs: seq<seq<real>>)
    : (r: map<string, seq<seq<real>>>)
    requires |outputs| == |members|
    ensures preds.Keys <= r.Keys && forall j :: 0 <= j < |members| ==> members[j].name in r
  {
    FoldNamesKeys(preds, Names(members), |members|, PredictionAppend, outputs);
    FoldNames(preds, Names(members), |members|, PredictionAppend, outputs)
  }

  /**
   * append_prediction_per_model, with distinct member names: each member's
   * list gains exactly that member's output at its end (the list is
   * created when absent); the lists of other names are untouched.
   */
  lemma PredictionsAddedSpec(preds: map<string, seq<seq<real>>>, members: seq<ModelInfo>, outputs: seq<seq<real>>, j: nat)
    requires |outputs| == |members| && j < |members| && Unique(Names(members))
    ensures var r, x := PredictionsAdded(preds, members, outputs), members[j].name;
            x in r && r[x] == (if x in preds then preds[x] else []) + [outputs[j]]
  {
    FoldNamesAt(preds, Names(members), |members|, PredictionAppend, outputs, j);
  }

  /** append_prediction_per_model gives a list to every member, and touches no other list. */
  lemma PredictionsAddedKeys(preds: map<string, seq<seq<real>>>, members: seq<ModelInfo>, outputs: seq<seq<real>>, x: string)
    requires |outputs| == |members|
    ensures var r := PredictionsAdded(preds, members, outputs);
            r.Keys == preds.Keys + (set j | 0 <= j < |members| :: members[j].name) &&
            ((forall j :: 0 <= j < |members| ==> members[j].name != x) ==> Find(r, x) == Find(preds, x))
  {
    FoldNamesKeys(preds, Names(members), |members|, PredictionAppend, outputs);
    assert (set j | 0 <= j < |members| :: Names(members)[j]) == (set j | 0 <= j < |members| :: members[j].name);
    if forall j :: 0 <= j < |members| ==> members[j].name != x {
      FoldNamesOther(preds, Names(members), |members|, PredictionAppend, outputs, x);
    }
  }

  /**
   * append_metric with another ensemble, on the member ledgers: a name in
   * both is merged self-then-other, a name only in other is adopted, a name
   * only in self is kept; the names are the union.
   */
  function MergeSubs(a: map<string, Ledger>, b: map<string, Ledger>): (r: map<string, Ledger>)
    ensures r.Keys == a.Keys + b.Keys
    ensures forall x :: x in a && x in b ==> r[x] == MergeLedger(a[x], b[x])
    ensures forall x :: x in b && x !in a ==> r[x] == b[x]
    ensures forall x :: x in a && x !in b ==> r[x] == a[x]
  {
    MergeSome(a, b, b.Keys, MergeLedger)
  }

  /** The entries of a once the names in done have been taken from b: merged with a namesake, or adopted. */
  function MergeSome<T>(a: map<string, T>, b: map<string, T>, done: set<string>, merge: (T, T) -> T): (r: map<string, T>)
    requires done <= b.Keys
    ensures r.Keys == a.Keys + done
  {
    map x | x in a.Keys + done :: if x in done && x in a then merge(a[x], b[x]) else if x in done then b[x] else a[x]
  }

  /** Taking no name from b leaves a as it is. */
  lemma MergeNone<T>(a: map<string, T>, b: map<string, T>, merge: (T, T) -> T)
    ensures MergeSome(a, b, {}, merge) == a
  {
    assert MergeSome(a, b, {}, merge).Keys == a.Keys;
  }

  /** Taking one more name x from b: x's entry is merged into its namesake, or adopted. */
  lemma MergeSomeStep<T>(a: map<string, T>, b: map<string, T>, done: set<string>, merge: (T, T) -> T, x: string,
                         r: map<string, T>, v: T)
    requires done <= b.Keys && x in b && x !in done
    requires r == MergeSome(a, b, done, merge)
    requires v == if x in r then merge(r[x], b[x]) else b[x]
    ensures r[x := v] == MergeSome(a, b, done + {x}, merge)
  {
    var q := MergeSome(a, b, done + {x}, merge);
    assert q.Keys == r[x := v].Keys;
  }

  /** Merging member ledgers keeps them well formed; merging none changes nothing. */
  lemma MergeSubsValid(a: map<string, Ledger>, b: map<string, Ledger>)
    requires AllValid(a) && AllValid(b)
    ensures MergeSubs(a, b).Keys == a.Keys + b.Keys && AllValid(MergeSubs(a, b))
  {
    forall x | x in a && x in b
      ensures MergeLedger(a[x], b[x]).Valid()
    {
      MergeLedgerValid(a[x], b[x]);
    }
  }

  /** Merging an ensemble without member ledgers leaves the member ledgers as they were. */
  lemma MergeSubsEmpty(a: map<string, Ledger>)
    ensures MergeSubs(a, map[]) == a
  {
  }

  /**
   * append_metric with a single model's ledger: merge it into its namesake
   * or adopt it. Only the entry under the model's name changes.
   */
  function AdoptOrMerge(subs: map<string, Ledger>, l: Ledger): (r: map<string, Ledger>)
    ensures r.Keys == subs.Keys + {l.model.name}
    ensures forall x :: x in subs && x != l.model.name ==> r[x] == subs[x]
  {
    var name := l.model.name;
    subs[name := if name in subs then MergeLedger(subs[name], l) else l]
  }

  /**
   * The two branches of append_metric agree: appending one model's ledger
   * is appending an ensemble holding only that ledger.
   */
  lemma AdoptOrMergeIsMergeSubs(subs: map<string, Ledger>, l: Ledger)
    ensures AdoptOrMerge(subs, l) == MergeSubs(subs, map[l.model.name := l])
  {
    var r, q := AdoptOrMerge(subs, l), MergeSubs(subs, map[l.model.name := l]);
    assert r.Keys == q.Keys;
  }

  /** An EnsembleMetrics object: the ensemble's own ledger, member ledgers and predictions. */
  class EnsembleMetrics {
    const base: BaseMetrics
    const members: seq<ModelInfo>
    var modelsMetric: map<string, Ledger>
    var yTruePerModel: seq<seq<real>>
    var yPredPerModel: map<string, seq<seq<real>>>

    /** The ensemble ledger this object currently holds. */
    function Value(): (e: EnsembleLedger)
      reads this, base
      ensures e.base == base.Value() && e.members == members
    {
      EnsembleLedger(base.Value(), members, modelsMetric, yTruePerModel, yPredPerModel)
    }

    constructor (model: ModelInfo, members: seq<ModelInfo>)
      ensures fresh(base)
      ensures Value() == NewEnsemble(model, members)
    {
      base := new BaseMetrics(model);
      this.members := members;
      modelsMetric := map[];
      yTruePerModel := [];
      yPredPerModel := map[];
    }

    /**
     * append_data: the ensemble's own part (rejecting an unknown split
     * before anything changes), then, when the tuple carries member data,
     * each member's window in list order; returns the last position read.
     */
    method AppendData(data: seq<real>, epoch: real, split: string) returns (r: Result<nat, LedgerError>)
      modifies this, base
      requires ParseSplit(split).Some? ==> CanAppend(Value(), data)
      ensures ParseSplit(split).None? ==> r == Err(InvalidSplit) && Value() == old(Value())
      ensures ParseSplit(split).Some? ==>
                r == Ok(LastRead(old(Value()), data)) &&
                Value() == EnsembleAppendStep(old(Value()), ParseSplit(split).value, data, epoch)
    {
      ghost var e0 := Value();
      var r0 := base.AppendData(data, epoch, split);
      if r0.Err? {
        return r0;
      }
      var s := ParseSplit(split).value;
      var n := r0.value;
      assert n == BaseLast(e0);
      ghost var b := base.Value();
      assert b == AppendStep(e0.base, s, data, epoch);
      if |data| > n + 1 {
        var c := MemberLoop(members, s, base.model.resultLabels, data, epoch, n);
        assert c == MemberInputs(e0, s, data, epoch);
        modelsMetric, n := RecordMembers(modelsMetric, c);
        assert modelsMetric == MembersAfter(e0, s, data, epoch);
      }
      assert n == LastRead(e0, data);
      EnsembleAppendStepIs(e0, s, data, epoch, b, modelsMetric);
      assert Value() == e0.(base := b, subs := modelsMetric);
      r := Ok(n);
    }

    /**
     * The member loop of append_data on the member ledgers subs: for each
     * member in list order, its ledger (created on first use) takes the
     * cost point, the costs and the scores of the member's window; returns
     * the ledgers and the last position read.
     */
    static method RecordMembers(subs: map<string, Ledger>, c: MemberLoop) returns (models: map<string, Ledger>, n: nat)
      requires c.Fits(|c.members|)
      ensures n == Offset(c.members, |c.members|, c.n0)
      ensures models == MembersUpTo(subs, c, |c.members|)
    {
      n, models := c.n0, subs;
      OffsetMonotone(c.members, 0, |c.members|, c.n0);
      var k := 0;
      while k < |c.members|
        invariant k <= |c.members| && c.Fits(k)
        invariant n == Offset(c.members, k, c.n0) && models == MembersUpTo(subs, c, k)
      {
        OffsetMonotone(c.members, k + 1, |c.members|, c.n0);
        models, n := RecordNext(subs, c, k, models, n);
        k := k + 1;
      }
    }

    /**
     * One pass of the member loop of append_data: member k's ledger takes
     * member k's window; returns the ledgers and the last position read.
     */
    static method RecordNext(subs: map<string, Ledger>, c: MemberLoop, k: nat, models: map<string, Ledger>, n: nat)
      returns (next: map<string, Ledger>, last: nat)
      requires k < |c.members| && c.Fits(k) && c.Fits(k + 1)
      requires n == Offset(c.members, k, c.n0) && models == MembersUpTo(subs, c, k)
      ensures last == Offset(c.members, k + 1, c.n0)
      ensures next == MembersUpTo(subs, c, k + 1)
    {
      var name := c.members[k].name;
      var l;
      l, last := RecordMember(c, Find(models, name), k, n);
      MemberLedgerDefined(c, k + 1);
      assert Names(c.members)[k] == name;
      FoldNamesNext(subs, Names(c.members), k, MemberLedger, c, models, l);
      next := models[name := l];
    }

    /**
     * Member j's part of append_data on its ledger prev, created when
     * absent: the cost point at the position after n, then add_data for
     * its costs and for its scores; returns the last position read.
     */
    static method RecordMember(c: MemberLoop, prev: Option<Ledger>, j: nat, n: nat) returns (r: Ledger, last: nat)
      requires j < |c.members| && c.Fits(j + 1) && n == Offset(c.members, j, c.n0)
      ensures last == Offset(c.members, j + 1, c.n0)
      ensures r == MemberLedger(c, prev, j)
    {
      var m := c.members[j];
      var l := LedgerOrNew(prev, m);
      last := n + 1;
      assert last == c.Start(j);
      var cost := AddPointTo(l.cost.Get(c.s), c.epoch, c.data[last], c.labels[last], m.name);
      var ch, sc;
      ch, last := AddData(c.labels, m.name, l.costs.Get(c.s), m.nCosts, last, c.data, c.epoch);
      sc, last := AddData(c.labels, m.name, l.scores.Get(c.s), m.nScores, last, c.data, c.epoch);
      r := WithParts(l, c.s, cost, ch, sc);
    }

    /**
     * append_prediction_per_model, given each member's output for the
     * sample (in member order): the target joins the target list, and each
     * output joins its member's prediction list.
     */
    method AppendPredictionPerModel(outputs: seq<seq<real>>, target: seq<real>)
      modifies this
      requires |outputs| == |members|
      ensures yTruePerModel == old(yTruePerModel) + [target]
      ensures yPredPerModel == PredictionsAdded(old(yPredPerModel), members, outputs)
      ensures modelsMetric == old(modelsMetric)
    {
      yTruePerModel := yTruePerModel + [target];
      for k := 0 to |members|
        invariant yPredPerModel == FoldNames(old(yPredPerModel), Names(members), k, PredictionAppend, outputs)
        invariant yTruePerModel == old(yTruePerModel) + [target] && modelsMetric == old(modelsMetric)
      {
        var name := members[k].name;
        if name !in yPredPerModel {
          yPredPerModel := yPredPerModel[name := []];
        }
        yPredPerModel := yPredPerModel[name := yPredPerModel[name] + [outputs[k]]];
      }
    }

    /**
     * append_prediction: the per-member outputs first, then the ensemble's
     * own output and target; returns the ensemble's score for the sample.
     */
    method AppendPrediction(outputs: seq<seq<real>>, output: seq<real>, target: seq<real>) returns (score: real)
      modifies this, base
      requires |outputs| == |members| && |output| == |target| > 0
      ensures yTruePerModel == old(yTruePerModel) + [target]
      ensures yPredPerModel == PredictionsAdded(old(yPredPerModel), members, outputs)
      ensures base.Value() == old(base.Value()).(yPred := old(base.yPred) + [output], yTrue := old(base.yTrue) + [target])
      ensures modelsMetric == old(modelsMetric)
      ensures score == PredictionScore(base.model, target, output)
    {
      AppendPredictionPerModel(outputs, target);
      score := base.AppendPrediction(output, target);
    }

    /**
     * append_metric with another ensemble: its member ledgers are merged
     * into the same-named ones or adopted, then its own ledger is merged
     * into this one's; the prediction lists are untouched.
     */
    method AppendEnsembleMetric(other: EnsembleMetrics)
      modifies this, base
      ensures modelsMetric == MergeSubs(old(modelsMetric), old(other.modelsMetric))
      ensures base.Value() == MergeLedger(old(base.Value()), old(other.base.Value()))
      ensures yTruePerModel == old(yTruePerModel) && yPredPerModel == old(yPredPerModel)
    {
      modelsMetric := MergeMembers(modelsMetric, other.modelsMetric);
      base.AppendMetric(other.base);
    }

    /**
     * The member loop of append_metric with another ensemble: each of its
     * member ledgers is merged into the same-named one of mine, or adopted.
     */
    static method MergeMembers(mine: map<string, Ledger>, theirs: map<string, Ledger>) returns (r: map<string, Ledger>)
      ensures r == MergeSubs(mine, theirs)
    {
      r := mine;
      var rest := theirs.Keys;
      ghost var done: set<string> := {};
      MergeNone(mine, theirs, MergeLedger);
      while rest != {}
        invariant done <= theirs.Keys && rest == theirs.Keys - done
        invariant r == MergeSome(mine, theirs, done, MergeLedger)
        decreases rest
      {
        var x :| x in rest;
        var v := if x in r then MergeLedger(r[x], theirs[x]) else theirs[x];
        MergeSomeStep(mine, theirs, done, MergeLedger, x, r, v);
        r := r[x := v];
        rest, done := rest - {x}, done + {x};
      }
      assert done == theirs.Keys;
    }

    /**
     * append_metric with a single model's ledger: merged into the member
     * ledger of the same name, or adopted; nothing else changes.
     */
    method AppendModelMetric(other: BaseMetrics)
      modifies this
      ensures modelsMetric == AdoptOrMerge(old(modelsMetric), old(other.Value()))
      ensures yTruePerModel == old(yTruePerModel) && yPredPerModel == old(yPredPerModel)
    {
      var l := other.Value();
      if l.model.name in modelsMetric {
        modelsMetric := modelsMetric[l.model.name := MergeLedger(modelsMetric[l.model.name], l)];
      } else {
        modelsMetric := modelsMetric[l.model.name := l];
      }
    }
  }
}
