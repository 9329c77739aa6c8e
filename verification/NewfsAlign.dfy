/** `newfs_msdos -A` over the restarts with smaller clusters: only the first layout may
    make the second pass that aligns the clusters. */
module NewfsAlign {
  import opened Arith
  import opened Buffers
  import opened FatLayout
  import opened FatFormat
  import opened FatPlan
  import opened Newfs

  // ----- How many passes the layouts make -----

  lemma {:induction false} LaterPass(u: Setup, b: Bpb, attempts: nat)
    requires CanSize(u, b) && attempts >= 1
    ensures Sizing(u, b, 0, attempts) == OnePass(u, b, 0, attempts)
    ensures Sizing(u, b, 0, attempts).Sized? ==> Sizing(u, b, 0, attempts).attempts == attempts + 1
  {
    hide OnePass;
    PassAttempts(u, b, 0, attempts);
  }

  /** A layout after the first makes one pass. */
  lemma LaterAttempt(c: Command, spc: nat, attempts: nat)
    requires CommandOk(c) && (spc == 0 || ClusterSize(spc)) && attempts >= 1
    ensures Attempt(c, spc, attempts).Laid? ==> Attempt(c, spc, attempts).attempts == attempts + 1
  {
    hide Attempt, OnePass, AreaOf, SetupFor;
    AttemptIs(c, spc, attempts);
    if AreaOf(c, spc).Area? { LaterPass(SetupFor(c, spc), c.b.(spc := spc), attempts); }
  }

  lemma {:induction false} LaterAttempts(c: Command, spc: nat, attempts: nat)
    requires CommandOk(c) && (spc == 0 || ClusterSize(spc)) && attempts >= 1
    ensures var r := Format(c, spc, attempts); r.layout.Laid? ==> r.layout.attempts == attempts + |r.tried|
    ensures LastStart(c, spc, attempts).attempts >= 1
    decreases if spc == 0 then 2 * MAXSPC else spc
  {
    hide Attempt, ClusterSize;
    LaterAttempt(c, spc, attempts);
    AttemptSpc(c, spc, attempts);
    var l := Attempt(c, spc, attempts);
    if TooFew(l) {
      HalfSize(l.b.spc);
      LaterAttempts(c, l.b.spc / 2, l.attempts);
    }
  }

  /** The first layout makes two passes exactly if its first pass is not aligned. */
  lemma FirstAttempt(c: Command, spc: nat)
    requires CommandOk(c) && (spc == 0 || ClusterSize(spc)) && c.align && c.b.res == 0
    ensures var l := Attempt(c, spc, 0);
      l.Laid? ==>
        && AreaOf(c, spc).Area? && CanSize(SetupFor(c, spc), c.b.(spc := spc))
        && l.attempts == (if SingleOff(SetupFor(c, spc), c.b.(spc := spc)) == 0 then 1 else 2)
        && l.b.spc >= 1 && l.alignment == AfterFats(l.b) % l.b.spc == 0
  {
    hide Attempt, OnePass, AreaOf, SetupFor, AfterFats, SingleOff, Sizing, MinCls, MaxCls, AllClusters, EntryLimit;
    AttemptIs(c, spc, 0);
    if Attempt(c, spc, 0).Laid? {
      SetupFits(c, spc);
      var u, b := SetupFor(c, spc), c.b.(spc := spc);
      var one, p := OnePass(u, b, 0, 0), Sizing(u, b, 0, 0);
      AlignedInTwoPasses(u, b);
      SingleOffIs(u, b, 0);
      SecondPass(u, b);
      PassAttempts(u, b, 0, 0);
      PassFields(u, b, 0, 0);
      if one.alignment != 0 { PassAttempts(u, one.b, one.extra, 1); }
      SameAfter(u.fat, p);
    }
  }

  lemma SameAfter(fat: nat, p: Sized)
    requires p.Sized? && FatType(fat) && p.b.spc >= 1
    ensures var l := Finish(fat, p);
      l.Laid? ==> AfterFats(l.b) == AfterFats(p.b) && l.b.spc == p.b.spc && l.alignment == p.alignment
                  && l.attempts == p.attempts
  {
    hide AllClusters, EntryLimit, TrimmedSize, MinCls, MaxCls;
  }

  // ----- The alignment of one pass -----

  /** How far from alignment one pass leaves the sector after the FATs: the reserved
      sectors are those of the FAT type, the FAT size the one given or the estimate's. */
  function SingleOff(u: Setup, b: Bpb): nat
    requires CanSize(u, b)
  {
    var c := Chosen(u, b, 0);
    OffBy(c.res, if b.bspf > 0 then b.bspf else AskedSpf(u.fat, c, RootSectors(u.fat, c), 1), c.nft, c.spc)
  }

  lemma SingleOffIs(u: Setup, b: Bpb, attempts: nat)
    requires SetupOk(u) && u.setRes && Parsed(b) && CanSize(u, b) && u.setSpf == (b.bspf == 0)
    ensures var p := OnePass(u, b, 0, attempts);
      p.Sized? ==> p.b.spc >= 1 && p.alignment == AfterFats(p.b) % p.b.spc == SingleOff(u, b)
  {
    hide OnePass, Chosen, AskedSpf, RootSectors, BaseReserved;
    PassFields(u, b, 0, attempts);
    ChosenKeeps(u, b);
    if b.bspf == 0 { FirstPassIs(u, b, attempts); }
  }

  lemma ChosenKeeps(u: Setup, b: Bpb)
    requires CanSize(u, b) && u.setRes
    ensures var c := Chosen(u, b, 0); c.res == BaseReserved(u, b.bps) && c.nft == b.nft
  {
    hide PickSpc, FixedSectors, BaseReserved, RootEntries, DefaultSpc;
  }

  lemma LaterOff(c: Command, spc: nat, attempts: nat)
    requires CommandOk(c) && (spc == 0 || ClusterSize(spc)) && c.b.res == 0 && attempts >= 1
    ensures var l := Attempt(c, spc, attempts);
      l.Laid? ==>
        && AreaOf(c, spc).Area? && CanSize(SetupFor(c, spc), c.b.(spc := spc)) && l.b.spc >= 1
        && l.alignment == AfterFats(l.b) % l.b.spc == SingleOff(SetupFor(c, spc), c.b.(spc := spc))
  {
    hide Attempt, OnePass, AreaOf, SetupFor, AfterFats, SingleOff, Sizing, Finish;
    AttemptIs(c, spc, attempts);
    if Attempt(c, spc, attempts).Laid? {
      SetupFits(c, spc);
      var u, b := SetupFor(c, spc), c.b.(spc := spc);
      LaterPass(u, b, attempts);
      SingleOffIs(u, b, attempts);
      SameAfter(u.fat, Sizing(u, b, 0, attempts));
    }
  }

  // ----- The final layout -----

  /** With `-A` and reserved sectors of the program's choice: the first layout makes one
      pass or two and each later one a single pass, so the final layout is aligned exactly
      if there was no restart, or one pass over the last cluster size is aligned by itself. */
  lemma {:induction false} FormatAligned(c: Command, spc: nat)
    requires CommandOk(c) && (spc == 0 || ClusterSize(spc)) && c.align && c.b.res == 0
    ensures var r, s := Format(c, spc, 0), LastStart(c, spc, 0);
      r.layout.Laid? ==>
        && AreaOf(c, spc).Area? && CanSize(SetupFor(c, spc), c.b.(spc := spc))
        && r.layout.attempts
           == |r.tried| + (if SingleOff(SetupFor(c, spc), c.b.(spc := spc)) == 0 then 0 else 1)
        && AreaOf(c, s.spc).Area? && CanSize(SetupFor(c, s.spc), c.b.(spc := s.spc)) && r.layout.b.spc >= 1
        && (AfterFats(r.layout.b) % r.layout.b.spc == 0
            <==> |r.tried| == 1 || SingleOff(SetupFor(c, s.spc), c.b.(spc := s.spc)) == 0)
  {
    hide Attempt, ClusterSize, SetupFor, SingleOff, AfterFats, AreaOf, CanSize;
    FirstAttempt(c, spc);
    AttemptSpc(c, spc, 0);
    SizePositive(c, spc);
    var l := Attempt(c, spc, 0);
    if TooFew(l) {
      HalfSize(l.b.spc);
      LaterAttempts(c, l.b.spc / 2, l.attempts);
      LastLayout(c, l.b.spc / 2, l.attempts);
      var s := LastStart(c, l.b.spc / 2, l.attempts);
      LaterOff(c, s.spc, s.attempts);
      RestartEnds(c, l.b.spc / 2, l.attempts);
    }
  }

  lemma SizePositive(c: Command, spc: nat)
    requires CommandOk(c) && (spc == 0 || ClusterSize(spc))
    ensures Attempt(c, spc, 0).Laid? ==> Attempt(c, spc, 0).b.spc >= 1
  {
    hide Attempt, FatOf;
    AttemptSpc(c, spc, 0);
  }

  // ----- A restart that loses the alignment -----

  /** `-A -F 32` on 2500000 sectors of 512 bytes with clusters of 64: the first layout is
      aligned but has too few clusters for some readers, and the second, with clusters
      of 32, ends six sectors off. */
  lemma {:induction false} AlignmentLost(c: Command)
    requires c == Command(Bpb(512, 64, 0, 2, 0, 2500000, 0), 32, 1, 0, 0, true)
    ensures CommandOk(c)
    ensures var r := Format(c, 64, 0);
      && r.tried == [64, 32] && r.layout.Laid? && r.layout.attempts == 3
      && r.layout.b.res == 32 && r.layout.b.bspf == 611 && r.layout.b.spc == 32 && AfterFats(r.layout.b) % 32 == 6
  {
    hide Attempt, Planned;
    LostFirst(c);
    LostSecond(c);
    assert [64] + ([32] + []) == [64, 32];
  }

  lemma LostSetup(c: Command, spc: nat)
    requires c == Command(Bpb(512, 64, 0, 2, 0, 2500000, 0), 32, 1, 0, 0, true) && (spc == 64 || spc == 32)
    ensures CommandOk(c) && AreaOf(c, spc) == Area(3, 1, 2)
    ensures var b := c.b.(spc := spc); SetupFor(c, spc) == SetupOf(32, 3, b, true) && OwnFat(SetupFor(c, spc), b)
  {
  }

  lemma LostFirst(c: Command)
    requires c == Command(Bpb(512, 64, 0, 2, 0, 2500000, 0), 32, 1, 0, 0, true)
    ensures CommandOk(c) && var l := Attempt(c, 64, 0); TooFew(l) && l.b.spc == 64 && l.attempts == 2
  {
    hide Attempt, SetupFor, AreaOf, FirstPlan, SecondPlan, Chosen, MetaData, Reported, Holds;
    LostSetup(c, 64);
    var u, b := SetupFor(c, 64), c.b;
    assert c.b.(spc := 64) == b;
    LostFirstPlan(u, b);
    LostSecondPlan(u, b);
    LostFirstEnd(PlanOf(u, b, 0));
    RestartsExactly(c, 64, 0);
  }

  lemma LostFirstPlan(u: Setup, b: Bpb)
    requires b == Bpb(512, 64, 0, 2, 0, 2500000, 0) && u == SetupOf(32, 3, b, true)
    ensures CanSize(u, b) && FirstPlan(u, b) == Plan(32, 512, 2500000, 32, 0, 306, 2, 64, 0, 306)
    ensures MetaData(32, 0, 1, 2) == 34
  {
    var c := Chosen(u, b, 0);
    assert c == Bpb(512, 64, 32, 2, 0, 2500000, 0);
    assert RootSectors(32, c) == 0;
    assert Estimate(32, c, 2499966) == 39053;
    assert FatSectors(32, c, 39053) == 306;
  }

  lemma LostSecondPlan(u: Setup, b: Bpb)
    requires b == Bpb(512, 64, 0, 2, 0, 2500000, 0) && u == SetupOf(32, 3, b, true)
    requires CanSize(u, b) && FirstPlan(u, b) == Plan(32, 512, 2500000, 32, 0, 306, 2, 64, 0, 306)
    ensures SecondPlan(u, b) == Plan(32, 512, 2500000, 92, 0, 306, 2, 64, 610, 306)
  {
    hide FirstPlan;
    var c := Chosen(u, b, 60);
    assert c == Bpb(512, 64, 92, 2, 0, 2500000, 0);
    assert OffBy(32, 306, 2, 64) == 4;
    assert Estimate(32, c, 2499296) == 39042;
    assert FatSectors(32, c, 39042) == 306;
  }

  lemma LostFirstEnd(q: Plan)
    requires q == Plan(32, 512, 2500000, 92, 0, 306, 2, 64, 610, 306)
    ensures Inside(q) && Start(q) == 704 && Reported(q) == 39041
  {
  }

  lemma LostSecond(c: Command)
    requires c == Command(Bpb(512, 64, 0, 2, 0, 2500000, 0), 32, 1, 0, 0, true)
    ensures CommandOk(c) && var l := Attempt(c, 32, 2);
      && l.Laid? && !TooFew(l) && l.b.spc == 32 && l.b.res == 32 && l.b.bspf == 611 && l.attempts == 3
      && AfterFats(l.b) % 32 == 6
  {
    hide Attempt, SetupFor, AreaOf, FirstPlan, SecondPlan, Chosen, MetaData, Reported, Holds, Derived, Trims, Lay,
      Counted, Off, AfterFats, EntriesIn, Start;
    LostSetup(c, 32);
    var u, b := SetupFor(c, 32), c.b.(spc := 32);
    LostLastPlan(u, b);
    LostLastEnd(PlanOf(u, b, 2));
    AttemptIsLay(c, 32, 2);
    LaidExactly(u, b, 2);
    LayFollows(u, b, 2);
    LostAfter(Lay(u, b, 2).b);
  }

  lemma LostAfter(b: Bpb)
    ensures b.res == 32 && b.bspf == 611 && b.nft == 2 ==> AfterFats(b) % 32 == 6
  {
  }

  lemma LostLastPlan(u: Setup, b: Bpb)
    requires b == Bpb(512, 32, 0, 2, 0, 2500000, 0) && u == SetupOf(32, 3, b, true)
    ensures CanSize(u, b) && FirstPlan(u, b) == Plan(32, 512, 2500000, 32, 0, 611, 2, 32, 0, 611)
    ensures MetaData(32, 0, 1, 2) == 34
  {
    var c := Chosen(u, b, 0);
    assert c == Bpb(512, 32, 32, 2, 0, 2500000, 0);
    assert RootSectors(32, c) == 0;
    assert Estimate(32, c, 2499966) == 78086;
    assert FatSectors(32, c, 78086) == 611;
  }

  lemma LostLastEnd(q: Plan)
    requires q == Plan(32, 512, 2500000, 32, 0, 611, 2, 32, 0, 611)
    ensures Inside(q) && Start(q) == 1254 && Reported(q) == 78085
  {
  }
}
