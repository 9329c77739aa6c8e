/** The layout of `newfs_msdos` in closed form: what one or two sizing passes arrive at,
    from the parameters they start with, and exactly when a reader of the result finds
    a FAT entry for every cluster and the FAT type that was asked for. */
module FatPlan {
  import opened Arith
  import opened Buffers
  import opened FatLayout
  import opened FatFormat

  /** `again` are the FAT sectors that a second pass counts twice, `asked` the FAT size
      its estimate asks for. */
  datatype Plan = Plan(fat: nat, bps: nat, bsec: nat, res: nat, rds: nat, spf: nat, nft: nat, spc: nat,
                       again: nat, asked: nat)

  predicate PlanOk(q: Plan) { FatType(q.fat) && q.spc >= 1 && q.spf >= 1 }

  /** The sector of the first cluster. */
  function Start(q: Plan): nat { MetaData(q.res, q.rds, q.spf, q.nft) }

  /** The FAT size an estimate asks for, made with FATs of `spf` sectors. */
  function AskedSpf(fat: nat, c: Bpb, rds: nat, spf: nat): nat
    requires c.bps > 0 && c.spc > 0
  {
    var x1 := MetaData(c.res, rds, spf, c.nft);
    if x1 > c.bsec then 1 else FatSectors(fat, c, Clusters(fat, c, x1))
  }

  function FirstPlan(u: Setup, b: Bpb): (q: Plan)
    requires CanSize(u, b)
    ensures q.spc >= 1
  {
    var c := Chosen(u, b, 0);
    var rds := RootSectors(u.fat, c);
    var spf := AskedSpf(u.fat, c, rds, 1);
    Plan(u.fat, c.bps, c.bsec, c.res, rds, spf, c.nft, c.spc, 0, spf)
  }

  /** How far the sector after the FATs is from alignment. */
  function Off(q: Plan): nat
    requires q.spc >= 1
  {
    OffBy(q.res, q.spf, q.nft, q.spc)
  }

  function OffBy(res: nat, spf: nat, nft: nat, spc: nat): (r: nat)
    requires spc >= 1
    ensures r < spc
  {
    (res + spf * nft) % spc
  }

  /** The further sectors of the FATs, which the second pass counts again. */
  function FatsAgain(spf: nat, nft: nat): nat { if spf >= 1 then (spf - 1) * nft else 0 }

  /** The second pass moves the FATs up to the alignment and keeps their size. */
  function SecondPlan(u: Setup, b: Bpb): Plan
    requires CanSize(u, b)
  {
    var q := FirstPlan(u, b);
    var d := Chosen(u, b, q.spc - Off(q));
    Plan(u.fat, d.bps, d.bsec, d.res, q.rds, q.spf, d.nft, d.spc,
         FatsAgain(q.spf, d.nft), AskedSpf(u.fat, d, q.rds, q.spf))
  }

  /** Whether there is a second pass: with `-A`, chosen reserved sectors, and attempts left. */
  predicate Repeats(u: Setup, b: Bpb, attempts: nat)
    requires CanSize(u, b)
  {
    u.align && u.setRes && attempts == 0 && Off(FirstPlan(u, b)) != 0
  }

  function PlanOf(u: Setup, b: Bpb, attempts: nat): Plan
    requires CanSize(u, b)
  {
    if Repeats(u, b, attempts) then SecondPlan(u, b) else FirstPlan(u, b)
  }

  // ----- The loop arrives at the plan -----

  /** A pass that ended where the plan says. */
  predicate Follows(p: Sized, q: Plan) {
    && p.Sized? && PlanOk(q) && p.b.bps == q.bps && p.b.bsec == q.bsec < WRAP && p.b.res == q.res && p.b.bspf == q.spf
    && p.b.nft == q.nft && p.b.spc == q.spc && p.rds == q.rds && p.x2 == q.asked
    && p.x1 == Start(q) + q.again <= q.bsec
    && RESFTE <= EntriesIn(q.fat, q.bps, q.spf) < WRAP
  }

  lemma FirstPassIs(u: Setup, b: Bpb, attempts: nat)
    requires OwnFat(u, b)
    ensures var p, q := OnePass(u, b, 0, attempts), FirstPlan(u, b);
      p.Sized? ==>
        && p.b == Chosen(u, b, 0).(bspf := q.spf) && p.rds == q.rds && p.attempts == attempts + 1
        && p.alignment == (if u.setRes then Off(q) else 0) && p.extra == (if u.setRes then q.spc - Off(q) else 0)
  {
    hide Chosen, FatSectors, RootSectors, Clusters, MetaData;
  }

  lemma FirstFollows(u: Setup, b: Bpb, attempts: nat)
    requires OwnFat(u, b)
    ensures var p := OnePass(u, b, 0, attempts); p.Sized? ==> Follows(p, FirstPlan(u, b))
  {
    hide OnePass, Chosen, FatSectors, RootSectors, Clusters, MetaData, EntriesIn, AskedSpf;
    FirstPassIs(u, b, attempts);
    PassPlain(u, b, attempts);
    PassShape(u, b, attempts);
    FirstPlanShape(u, b);
  }

  lemma FirstPlanShape(u: Setup, b: Bpb)
    requires CanSize(u, b)
    ensures var q, c := FirstPlan(u, b), Chosen(u, b, 0);
      && q.fat == u.fat && q.bps == c.bps && q.bsec == c.bsec && q.res == c.res && q.nft == c.nft && q.spc == c.spc
      && q.again == 0 && q.asked == q.spf && q.rds == RootSectors(u.fat, c)
  {
    hide AskedSpf, Chosen, RootSectors;
  }

  /** The second pass starts over with more reserved sectors and the FAT size found. */
  lemma ChosenAgain(u: Setup, b: Bpb, spf: nat, extra: nat)
    requires CanSize(u, b)
    ensures Chosen(u, Chosen(u, b, 0).(bspf := spf), extra) == Chosen(u, b, extra).(bspf := spf)
    ensures RootSectors(u.fat, Chosen(u, b, extra).(bspf := spf)) == RootSectors(u.fat, Chosen(u, b, 0))
  {
    hide CeilDiv, PickSpc, DefaultSpc, BaseReserved, MaxCls;
  }

  lemma SecondPlanShape(u: Setup, b: Bpb)
    requires CanSize(u, b)
    ensures var q, r, d := FirstPlan(u, b), SecondPlan(u, b), Chosen(u, b, FirstPlan(u, b).spc - Off(FirstPlan(u, b)));
      && r.fat == u.fat && r.bps == d.bps && r.bsec == d.bsec && r.res == d.res && r.nft == d.nft && r.spc == d.spc >= 1
      && r.rds == q.rds && r.spf == q.spf && r.again == FatsAgain(q.spf, d.nft)
      && r.asked == AskedSpf(u.fat, d, q.rds, q.spf)
  {
    hide AskedSpf, Chosen, FirstPlan, Off, FatsAgain;
  }

  /** One pass with a FAT size found before. */
  lemma AgainPass(u: Setup, c: Bpb, extra: nat, attempts: nat)
    requires CanSize(u, c) && u.setSpf && u.setRes && c.bspf >= 1
    ensures var p, d := OnePass(u, c, extra, attempts), Chosen(u, c, extra);
      var rds := RootSectors(u.fat, d);
      p.Sized? ==>
        && p.b == d && p.rds == rds && p.attempts == attempts + 1
        && MetaData(d.res, rds, d.bspf, d.nft) <= d.bsec
        && p.x1 == Wrap(MetaData(d.res, rds, d.bspf, d.nft) + FatsAgain(d.bspf, d.nft))
        && p.x2 == AskedSpf(u.fat, d, rds, d.bspf)
        && p.alignment == OffBy(d.res, d.bspf, d.nft, d.spc)
  {
    hide Chosen, FatSectors, RootSectors, Clusters, MetaData;
    var d := Chosen(u, c, extra);
    assert d.(bspf := d.bspf) == d;
  }

  lemma SameAsked(fat: nat, c: Bpb, d: Bpb, rds: nat, spf: nat)
    requires c.bps > 0 && c.spc > 0 && d == c.(bspf := d.bspf)
    ensures AskedSpf(fat, c, rds, spf) == AskedSpf(fat, d, rds, spf)
  {
    if MetaData(c.res, rds, spf, c.nft) <= c.bsec { SameSizes(fat, c, d, MetaData(c.res, rds, spf, c.nft)); }
  }

  /** The loop, in one pass or two, arrives at the plan, with `x1` inside the volume. */
  lemma {:induction false} LoopFollows(u: Setup, b: Bpb, attempts: nat)
    requires OwnFat(u, b)
    ensures var p, q := Sizing(u, b, 0, attempts), PlanOf(u, b, attempts);
      p.Sized? ==>
        && Follows(p, q) && p.b == Chosen(u, b, 0).(res := q.res, spc := q.spc, bspf := q.spf)
        && p.attempts == attempts + (if Repeats(u, b, attempts) then 2 else 1)
        && p.alignment == (if u.setRes then Off(q) else 0)
  {
    hide OnePass, Chosen, FirstPlan, SecondPlan, Follows, Off;
    FirstPassIs(u, b, attempts);
    FirstFollows(u, b, attempts);
    FirstPlanShape(u, b);
    FollowsSpc(OnePass(u, b, 0, attempts), FirstPlan(u, b));
    if OnePass(u, b, 0, attempts).Sized? && Repeats(u, b, attempts) { SecondFollows(u, b); }
  }

  lemma FollowsSpc(p: Sized, q: Plan)
    ensures Follows(p, q) ==> p.Sized? && p.b.spc == q.spc >= 1 && p.b.bspf == q.spf >= 1 && p.b.res == q.res
  {
  }

  lemma {:induction false} SecondFollows(u: Setup, b: Bpb)
    requires OwnFat(u, b) && Repeats(u, b, 0) && OnePass(u, b, 0, 0).Sized?
    ensures var p, q := Sizing(u, b, 0, 0), SecondPlan(u, b);
      p.Sized? ==>
        && Follows(p, q) && p.b == Chosen(u, b, 0).(res := q.res, spc := q.spc, bspf := q.spf)
        && p.attempts == 2 && p.alignment == Off(q)
  {
    hide OnePass, Chosen, FirstPlan, SecondPlan, FatSectors, MetaData, AskedSpf, EntriesIn, RootSectors, FatsAgain,
      Sizing, OffBy;
    var one, q, r := OnePass(u, b, 0, 0), FirstPlan(u, b), SecondPlan(u, b);
    FirstPassIs(u, b, 0);
    FirstFollows(u, b, 0);
    FirstPlanShape(u, b);
    SecondPlanShape(u, b);
    FirstRoom(u, b);
    var extra := q.spc - Off(q);
    SecondPass(u, b);
    ChosenAgain(u, b, q.spf, extra);
    AgainPass(u, one.b, extra, 1);
    var d := Chosen(u, b, extra);
    SameAsked(u.fat, d, d.(bspf := q.spf), q.rds, q.spf);
    ChosenRes(u, b, extra);
    if Sizing(u, b, 0, 0).Sized? {
      AgainInside(q.res, r.res, q.rds, q.spf, r.nft, q.spc, b.bsec);
    }
  }

  lemma FirstRoom(u: Setup, b: Bpb)
    requires OwnFat(u, b) && OnePass(u, b, 0, 0).Sized?
    ensures var q := FirstPlan(u, b);
      && MetaData(q.res, q.rds, 1, q.nft) <= b.bsec && q.nft == b.nft && q.bsec == b.bsec
      && (q.spf == 1 || 2 * FatsAgain(q.spf, q.nft) + q.spc <= b.bsec - MetaData(q.res, q.rds, 1, q.nft))
  {
    hide OnePass, Chosen, FirstPlan, FatSectors, MetaData, AskedSpf, EntriesIn, RootSectors, Estimate;
    PassShape(u, b, 0);
    FirstPassIs(u, b, 0);
    FirstFollows(u, b, 0);
    FirstPlanShape(u, b);
  }

  /** More reserved sectors change nothing else but the cluster size. */
  lemma ChosenRes(u: Setup, b: Bpb, extra: nat)
    requires CanSize(u, b) && u.setRes
    ensures var c, d := Chosen(u, b, 0), Chosen(u, b, extra);
      d == c.(res := c.res + extra, spc := d.spc) && (!u.setSpc ==> d.spc == c.spc)
      && c.nft == b.nft && c.bsec == b.bsec
  {
    hide CeilDiv, PickSpc, DefaultSpc, BaseReserved, MaxCls, RootEntries, FixedSectors;
  }

  /** The FATs are counted twice, but still inside the volume. */
  lemma AgainInside(res: nat, more: nat, rds: nat, f: nat, nft: nat, spc: nat, bsec: nat)
    requires f >= 1 && more <= res + spc && MetaData(more, rds, f, nft) <= bsec < WRAP
    requires MetaData(res, rds, 1, nft) <= bsec
    requires f == 1 || 2 * FatsAgain(f, nft) + spc <= bsec - MetaData(res, rds, 1, nft)
    ensures MetaData(more, rds, f, nft) + FatsAgain(f, nft) <= bsec
    ensures Wrap(MetaData(more, rds, f, nft) + FatsAgain(f, nft)) == MetaData(more, rds, f, nft) + FatsAgain(f, nft)
  {
    var m := (f - 1) * nft;
    assert f * nft == m + nft;
  }

  // ----- The clusters of a plan -----

  function Holds(q: Plan): nat
    requires PlanOk(q)
  {
    EntriesIn(q.fat, q.bps, q.spf)
  }

  /** Room for one cluster more than the FAT type allows, with entries for it: the
      volume is trimmed at line 671. */
  predicate Trims(q: Plan)
    requires PlanOk(q)
  {
    Holds(q) > MaxCls(q.fat) + RESFTE && q.bsec >= Start(q) + q.again + (MaxCls(q.fat) + 1) * q.spc
  }

  /** One FAT has an entry for every cluster of the volume, which when trimmed still has
      the room of the sectors counted twice. */
  predicate Enough(q: Plan)
    requires PlanOk(q)
  {
    if Trims(q) then MaxCls(q.fat) + CeilDiv(q.again, q.spc) + RESFTE <= Holds(q)
    else q.bsec + q.spc < Start(q) + Holds(q) * q.spc
  }

  /** The type is the one a reader takes the volume for. */
  predicate TypeKept(q: Plan)
    requires PlanOk(q)
  {
    if q.fat == 12 then
      q.bsec < Start(q) + 4085 * q.spc || (Holds(q) > MaxCls(12) + RESFTE && q.again <= 7 * q.spc)
    else if q.fat == 16 then q.bsec < Start(q) + 65525 * q.spc
    else q.bsec >= Start(q) + 65525 * q.spc
  }

  /** What `Follows` says of the numbers of a plan. */
  predicate Inside(q: Plan) {
    PlanOk(q) && Start(q) + q.again <= q.bsec < WRAP && RESFTE <= Holds(q) < WRAP
  }

  /** The clusters counted at line 661. */
  function Counted(q: Plan): nat
    requires Inside(q)
  {
    Between(Start(q) + q.again, q.bsec, q.spc)
  }

  function Reported(q: Plan): nat
    requires Inside(q)
  {
    if Trims(q) then MaxCls(q.fat)
    else Min(Counted(q), Holds(q) - RESFTE)
  }

  function Derived(q: Plan): nat
    requires Inside(q)
  {
    if Trims(q) then MaxCls(q.fat) + CeilDiv(q.again, q.spc) else Between(Start(q), q.bsec, q.spc)
  }

  lemma FollowsInside(p: Sized, q: Plan)
    requires Follows(p, q)
    ensures Inside(q) && p.b.spc >= 1 && AllClusters(p) == Counted(q)
    ensures EntryLimit(q.fat, p) == Holds(q) - RESFTE
  {
    hide EntriesIn, MetaData;
  }

  /** The trim applies exactly when its bounds say so, and keeps the room counted twice. */
  lemma TrimsExactly(p: Sized, q: Plan)
    requires Follows(p, q)
    ensures Inside(q) && p.b.spc >= 1
    ensures Trims(q) <==> Min(AllClusters(p), EntryLimit(q.fat, p)) > MaxCls(q.fat)
    ensures Trims(q) ==>
      && Start(q) <= TrimmedSize(q.fat, p) < WRAP
      && Between(Start(q), TrimmedSize(q.fat, p), q.spc) == MaxCls(q.fat) + CeilDiv(q.again, q.spc)
  {
    hide EntriesIn, MetaData, MaxCls, AllClusters, EntryLimit, CeilDiv, Between, TrimmedSize;
    FollowsInside(p, q);
    BetweenAtLeast(Start(q) + q.again, q.bsec, q.spc, MaxCls(q.fat) + 1);
    if Between(Start(q) + q.again, q.bsec, q.spc) > MaxCls(q.fat) {
      TrimmedIs(q.fat, p);
      TrimmedKeeps(q, TrimmedSize(q.fat, p));
    }
  }

  lemma TrimmedKeeps(q: Plan, size: nat)
    requires PlanOk(q) && size == Start(q) + q.again + (MaxCls(q.fat) + 1) * q.spc - 1
    ensures Start(q) <= size && Between(Start(q), size, q.spc) == MaxCls(q.fat) + CeilDiv(q.again, q.spc)
  {
    hide MetaData, MaxCls, CeilDiv;
    TrimShort(q.again, q.spc, MaxCls(q.fat));
  }

  lemma TrimShort(more: nat, spc: nat, m: nat)
    requires spc >= 1
    ensures more + (m + 1) * spc - 1 >= 0 && (more + (m + 1) * spc - 1) / spc == m + CeilDiv(more, spc)
  {
    var c := CeilDiv(more, spc);
    DivBounds(more + spc - 1, spc);
    assert (m + c) * spc == m * spc + c * spc;
    assert (m + 1) * spc == m * spc + spc;
    DivUnique(more + (m + 1) * spc - 1, m + c, spc);
  }

  /** What the formatter reports and what a reader derives, from the plan. */
  lemma FinishFollows(p: Sized, q: Plan)
    requires Follows(p, q)
    ensures Inside(q) && p.b.spc >= 1
    ensures var l := Finish(q.fat, p);
      && (l.Laid? <==> Reported(q) >= MinCls(q.fat))
      && (l.Laid? ==>
            && l.fat == q.fat && l.b == p.b.(bsec := l.b.bsec) && l.rds == q.rds && l.attempts == p.attempts
            && l.alignment == p.alignment && l.b.spc >= 1 && DataStart(l) == Start(q) <= l.b.bsec
            && l.cls == Reported(q) && ReaderClusters(l) == Derived(q) && Entries(l) == Holds(q)
            && l.trimmed == Trims(q) && l.warned == (q.spf < q.asked)
            && (!l.trimmed ==> l.b == p.b && l.clipped == (Counted(q) > Holds(q) - RESFTE)))
  {
    hide EntriesIn, MetaData, MaxCls, MinCls, AllClusters, EntryLimit, CeilDiv, Between, TrimmedSize;
    FollowsInside(p, q);
    TrimsExactly(p, q);
    ClassesOrdered(q.fat);
  }

  /** There is room for the metadata: what the error exits of a pass ask for. */
  predicate HasRoom(u: Setup, b: Bpb, attempts: nat)
    requires CanSize(u, b)
  {
    var q := FirstPlan(u, b);
    && (u.setRes || q.res >= u.least) && MetaData(q.res, q.rds, 1, q.nft) <= q.bsec
    && (Repeats(u, b, attempts) ==> (u.fat == 32 || q.spf <= MAXU16) && Start(SecondPlan(u, b)) <= q.bsec)
  }

  lemma FirstFits(u: Setup, b: Bpb, attempts: nat)
    requires OwnFat(u, b)
    ensures var q := FirstPlan(u, b);
      OnePass(u, b, 0, attempts).Sized?
      <==> (u.setRes || q.res >= u.least) && MetaData(q.res, q.rds, 1, q.nft) <= q.bsec
  {
    hide Chosen, FirstPlan, FatSectors, RootSectors, Clusters, MetaData, AskedSpf;
    FirstPlanShape(u, b);
    ChosenBase(u, b);
  }

  lemma ChosenBase(u: Setup, b: Bpb)
    requires CanSize(u, b)
    ensures !u.setRes ==> Chosen(u, b, 0).res == b.res
  {
    hide PickSpc, FixedSectors, BaseReserved, RootEntries, DefaultSpc;
  }

  lemma {:induction false} AgainFits(u: Setup, b: Bpb)
    requires OwnFat(u, b) && Repeats(u, b, 0) && OnePass(u, b, 0, 0).Sized?
    ensures var q := FirstPlan(u, b);
      Sizing(u, b, 0, 0).Sized? <==> (u.fat == 32 || q.spf <= MAXU16) && Start(SecondPlan(u, b)) <= q.bsec
  {
    hide OnePass, Chosen, FirstPlan, SecondPlan, MetaData, AskedSpf, RootSectors, FatsAgain, Sizing, OffBy;
    var one, q, extra := OnePass(u, b, 0, 0), FirstPlan(u, b), FirstPlan(u, b).spc - Off(FirstPlan(u, b));
    FirstPassIs(u, b, 0);
    FirstFollows(u, b, 0);
    FollowsSpc(one, q);
    FirstPlanShape(u, b);
    SecondPlanShape(u, b);
    SecondPass(u, b);
    ChosenAgain(u, b, q.spf, extra);
    ChosenRes(u, b, extra);
    GivenFits(u, one.b, extra, 1);
  }

  /** A pass with a FAT size found before ends in a result exactly if the metadata fit. */
  lemma GivenFits(u: Setup, c: Bpb, extra: nat, attempts: nat)
    requires CanSize(u, c) && u.setSpf && u.setRes && c.bspf >= 1
    ensures var d := Chosen(u, c, extra);
      OnePass(u, c, extra, attempts).Sized?
      <==> (u.fat == 32 || c.bspf <= MAXU16) && MetaData(d.res, RootSectors(u.fat, d), c.bspf, d.nft) <= d.bsec
  {
    hide Chosen, FatSectors, RootSectors, Clusters, MetaData;
  }

  lemma {:induction false} SizedExactly(u: Setup, b: Bpb, attempts: nat)
    requires OwnFat(u, b)
    ensures Sizing(u, b, 0, attempts).Sized? <==> HasRoom(u, b, attempts)
  {
    hide OnePass, Chosen, FirstPlan, SecondPlan, MetaData, Off;
    FirstFits(u, b, attempts);
    FirstPassIs(u, b, attempts);
    FirstFollows(u, b, attempts);
    FollowsSpc(OnePass(u, b, 0, attempts), FirstPlan(u, b));
    if OnePass(u, b, 0, attempts).Sized? && Repeats(u, b, attempts) { AgainFits(u, b); }
  }

  // ----- When the layout is right -----

  /** The layout of a setup: the loop, then lines 661-673. */
  function Lay(u: Setup, b: Bpb, attempts: nat): Layout
    requires OwnFat(u, b)
  {
    LoopFollows(u, b, attempts);
    Finish(u.fat, Sizing(u, b, 0, attempts))
  }

  /** A layout, of one pass or two, is what the plan says. */
  lemma LayFollows(u: Setup, b: Bpb, attempts: nat)
    requires OwnFat(u, b)
    ensures var l, q := Lay(u, b, attempts), PlanOf(u, b, attempts);
      l.Laid? ==>
        && Inside(q) && l.fat == q.fat == u.fat && l.b.spc == q.spc && l.b.res == q.res && l.b.bspf == q.spf
        && l.b.nft == q.nft && l.rds == q.rds && l.b.bps == q.bps
        && DataStart(l) == Start(q) <= l.b.bsec
        && l.cls == Reported(q) && ReaderClusters(l) == Derived(q) && Entries(l) == Holds(q)
        && l.trimmed == Trims(q) && l.warned == (q.spf < q.asked)
        && (!l.trimmed ==> l.clipped == (Counted(q) > Holds(q) - RESFTE))
        && l.alignment == (if u.setRes then Off(q) else 0)
        && l.attempts == attempts + (if Repeats(u, b, attempts) then 2 else 1)
  {
    hide Sizing, PlanOf, Reported, Derived, Trims, Holds, Start, Off, Chosen, MetaData, EntriesIn, Between, MinCls;
    LoopFollows(u, b, attempts);
    PlanFat(u, b, attempts);
    var p := Sizing(u, b, 0, attempts);
    if p.Sized? { FinishFollows(p, PlanOf(u, b, attempts)); }
  }

  /** There is a layout exactly when the metadata fit and enough clusters remain. */
  lemma LaidExactly(u: Setup, b: Bpb, attempts: nat)
    requires OwnFat(u, b)
    ensures var q := PlanOf(u, b, attempts);
      Lay(u, b, attempts).Laid? <==> HasRoom(u, b, attempts) && Inside(q) && Reported(q) >= MinCls(u.fat)
  {
    hide Sizing, PlanOf, Reported, Derived, Trims, Holds, Start, Off, Chosen, MetaData, EntriesIn, Between, MinCls,
      HasRoom;
    SizedExactly(u, b, attempts);
    LoopFollows(u, b, attempts);
    PlanFat(u, b, attempts);
    var p := Sizing(u, b, 0, attempts);
    if p.Sized? { FinishFollows(p, PlanOf(u, b, attempts)); }
  }

  lemma PlanFat(u: Setup, b: Bpb, attempts: nat)
    requires CanSize(u, b)
    ensures PlanOf(u, b, attempts).fat == u.fat && PlanOf(u, b, attempts).spc >= 1
  {
    hide AskedSpf, Chosen, Off;
  }

  /** One FAT has an entry for every cluster a reader derives, and the two reserved ones. */
  predicate Covered(l: Layout)
    requires l.Laid?
  {
    FatType(l.fat) && l.b.spc >= 1 && DataStart(l) <= l.b.bsec && ReaderClusters(l) + RESFTE <= Entries(l)
  }

  /** A layout covers its clusters exactly when its plan says so beforehand. */
  lemma CoversExactly(u: Setup, b: Bpb, attempts: nat)
    requires OwnFat(u, b)
    ensures var l, q := Lay(u, b, attempts), PlanOf(u, b, attempts);
      l.Laid? ==> PlanOk(q) && (Covered(l) <==> Enough(q))
  {
    hide Lay, PlanOf, Start, Holds, MaxCls, MetaData, CeilDiv, Between, EntriesIn;
    LayFollows(u, b, attempts);
    var l, q := Lay(u, b, attempts), PlanOf(u, b, attempts);
    if l.Laid? && !Trims(q) { RoomFor(q); }
  }

  lemma RoomFor(q: Plan)
    requires Inside(q)
    ensures Between(Start(q), q.bsec, q.spc) + RESFTE <= Holds(q) <==> q.bsec + q.spc < Start(q) + Holds(q) * q.spc
  {
    hide Start, Holds, Between;
    BetweenAtLeast(Start(q), q.bsec, q.spc, Holds(q) - 1);
    assert (Holds(q) - 1) * q.spc + q.spc == Holds(q) * q.spc;
  }

  /** A reader that goes by the cluster count takes the volume for the type it was
      formatted as exactly when its size keeps to the bounds of that type. */
  lemma TypeRead(u: Setup, b: Bpb, attempts: nat)
    requires OwnFat(u, b)
    ensures var l, q := Lay(u, b, attempts), PlanOf(u, b, attempts);
      l.Laid? ==>
        && PlanOk(q) && l.b.spc >= 1 && DataStart(l) <= l.b.bsec
        && (ReaderType(ReaderClusters(l)) == l.fat <==> TypeKept(q))
  {
    hide Lay, PlanOf, Start, Holds, MetaData, CeilDiv, Between, EntriesIn, TypeKept, Derived, Trims, MinCls, MaxCls;
    LayFollows(u, b, attempts);
    var l, q := Lay(u, b, attempts), PlanOf(u, b, attempts);
    if l.Laid? {
      LaidExactly(u, b, attempts);
      TypeOfDerived(q);
    }
  }

  lemma TypeOfDerived(q: Plan)
    requires Inside(q) && Reported(q) >= MinCls(q.fat)
    ensures ReaderType(Derived(q)) == q.fat <==> TypeKept(q)
  {
    hide Start, Holds, MetaData, CeilDiv, Between, EntriesIn;
    BetweenAtLeast(Start(q), q.bsec, q.spc, 4085);
    BetweenAtLeast(Start(q), q.bsec, q.spc, 65525);
    BetweenFalls(Start(q), Start(q) + q.again, q.bsec, q.spc);
    CeilDivCovers(q.again, q.spc, 7);
    CeilDivZero(q.again, q.spc);
  }

  lemma CeilDivZero(n: nat, m: nat)
    requires m >= 1
    ensures CeilDiv(n, m) >= 0 && (n == 0 ==> CeilDiv(n, m) == 0)
  {
    if n == 0 { DivUnique(n + m - 1, 0, m); }
  }

  lemma BetweenFalls(start: nat, later: nat, bsec: nat, spc: nat)
    requires spc >= 1 && start <= later <= bsec
    ensures Between(later, bsec, spc) <= Between(start, bsec, spc)
  {
    DivRise(bsec - later, bsec - start, spc);
  }
}
