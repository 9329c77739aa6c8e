/** Layouts of `newfs_msdos` whose FAT is large enough, and volumes on which it is not
    or on which a reader takes them for another FAT type. */
module FatCover {
  import opened Arith
  import opened Buffers
  import opened FatLayout
  import opened FatFormat
  import opened FatPlan

  // ----- Two passes with the cluster size given -----

  /** The estimate of the first pass: no fewer sectors per cluster than FATs, no
      remainder lost, and no more clusters than the FAT type allows. */
  predicate FirstSound(u: Setup, b: Bpb)
    requires CanSize(u, b)
  {
    var c := Chosen(u, b, 0);
    var x1 := MetaData(c.res, RootSectors(u.fat, c), 1, c.nft);
    && x1 <= c.bsec && c.spc >= c.nft && RemainderKept(u.fat, c, c.bsec - x1)
    && Estimate(u.fat, c, c.bsec - x1) <= MaxCls(u.fat)
  }

  /** What a sound estimate means for the plan of the first pass. */
  lemma FirstSoundRoom(u: Setup, b: Bpb)
    requires OwnFat(u, b) && OnePass(u, b, 0, 0).Sized? && FirstSound(u, b)
    ensures var q, c := FirstPlan(u, b), Chosen(u, b, 0);
      var left := c.bsec - MetaData(c.res, RootSectors(u.fat, c), 1, c.nft);
      && Inside(q) && q.spf == FatSectors(u.fat, c, Estimate(u.fat, c, left))
      && Between(Start(q), q.bsec, q.spc) <= Estimate(u.fat, c, left) <= Holds(q) - RESFTE
  {
    hide OnePass, Chosen, FirstPlan, FatSectors, MetaData, EntriesIn, RootSectors, Estimate, RemainderKept, Between;
    var q, c, p := FirstPlan(u, b), Chosen(u, b, 0), OnePass(u, b, 0, 0);
    FirstPlanShape(u, b);
    FirstPassIs(u, b, 0);
    FirstFollows(u, b, 0);
    PassShape(u, b, 0);
    var left := c.bsec - MetaData(c.res, RootSectors(u.fat, c), 1, c.nft);
    SameOther(u.fat, c, p.b, left);
    EstimateExact(u, b, 0);
  }

  /** The estimate does not depend on the reserved sectors or the FAT size. */
  lemma SameOther(fat: nat, b: Bpb, c: Bpb, left: nat)
    requires b.bps > 0 && b.spc > 0 && c == b.(res := c.res, bspf := c.bspf)
    ensures Estimate(fat, b, left) == Estimate(fat, c, left)
    ensures RemainderKept(fat, b, left) == RemainderKept(fat, c, left)
    ensures forall x: nat :: FatSectors(fat, b, x) == FatSectors(fat, c, x)
  {
  }

  /** With less room the estimate is no larger. */
  lemma EstimateFalls(fat: nat, b: Bpb, left: nat, less: nat)
    requires b.bps > 0 && b.spc > 0 && less < left && RemainderKept(fat, b, left)
    ensures Estimate(fat, b, less) <= Estimate(fat, b, left)
  {
    hide Estimate, RemainderKept;
    EstimateBounds(fat, b, left);
    EstimateBounds(fat, b, less);
    var d := b.spc * NibblesPerSector(b) + Nibbles(fat) * b.nft;
    var x, y := Estimate(fat, b, left), Estimate(fat, b, less);
    MulMono(less, left, NibblesPerSector(b));
    if y > x { MulLe(x, y - 1, d); }
  }

  lemma LaterStart(res: nat, more: nat, rds: nat, f: nat, nft: nat)
    requires res < more && f >= 1
    ensures MetaData(res, rds, f, nft) < MetaData(more, rds, f, nft)
    ensures MetaData(res, rds, 1, nft) < MetaData(more, rds, f, nft)
  {
    MulLe(1, f, nft);
  }

  /** The plan of two passes with the cluster size given, next to that of the first. */
  lemma SecondBesideFirst(u: Setup, b: Bpb)
    requires OwnFat(u, b) && Repeats(u, b, 0) && !u.setSpc
    ensures var q, r, c := FirstPlan(u, b), SecondPlan(u, b), Chosen(u, b, 0);
      && r == q.(res := r.res, again := r.again, asked := r.asked) && q.res < r.res
      && r.asked == AskedSpf(u.fat, c.(res := r.res), q.rds, q.spf)
      && c == c.(bsec := q.bsec, nft := q.nft, spc := q.spc, res := q.res)
      && q.rds == RootSectors(u.fat, c) && q.fat == u.fat
  {
    hide Chosen, FirstPlan, SecondPlan, RootSectors, AskedSpf, OffBy;
    FirstPlanShape(u, b);
    SecondPlanShape(u, b);
    ChosenRes(u, b, FirstPlan(u, b).spc - Off(FirstPlan(u, b)));
  }

  /** Two passes with the cluster size given, when the first estimate was sound: the FAT
      is large enough, the volume is not trimmed, and the second estimate asks for no more. */
  lemma TwoPassesCover(u: Setup, b: Bpb)
    requires OwnFat(u, b) && Repeats(u, b, 0) && !u.setSpc && FirstSound(u, b)
    ensures var l := Lay(u, b, 0); l.Laid? ==> Covered(l) && !l.trimmed && !l.warned
  {
    hide OnePass, Lay, Covered, FirstPlan, SecondPlan, Repeats, Enough, Trims;
    LayFollows(u, b, 0);
    CoversExactly(u, b, 0);
    if Lay(u, b, 0).Laid? {
      LaidOncePassed(u, b);
      SecondEnough(u, b);
    }
  }

  lemma {:induction false} LaidOncePassed(u: Setup, b: Bpb)
    requires OwnFat(u, b) && Lay(u, b, 0).Laid?
    ensures OnePass(u, b, 0, 0).Sized?
  {
    hide OnePass;
  }

  lemma SecondEnough(u: Setup, b: Bpb)
    requires OwnFat(u, b) && Repeats(u, b, 0) && !u.setSpc && FirstSound(u, b)
    requires OnePass(u, b, 0, 0).Sized? && Inside(SecondPlan(u, b))
    ensures var r := SecondPlan(u, b); Enough(r) && !Trims(r) && r.asked <= r.spf
  {
    hide OnePass, Chosen, FirstPlan, SecondPlan, FatSectors, MetaData, EntriesIn, RootSectors, Estimate, RemainderKept,
      Between, Repeats, MaxCls, Off, Enough, Trims, AskedSpf;
    var q, r, c := FirstPlan(u, b), SecondPlan(u, b), Chosen(u, b, 0);
    SecondBesideFirst(u, b);
    FirstSoundRoom(u, b);
    LaterStart(q.res, r.res, q.rds, q.spf, q.nft);
    BetweenFalls(Start(q), Start(r), q.bsec, q.spc);
    FewEnough(r);
    AskedFalls(u.fat, c, r.res, q.rds, q.spf);
  }

  /** No more clusters than entries, and than the FAT type allows. */
  lemma FewEnough(r: Plan)
    requires Inside(r) && Between(Start(r), r.bsec, r.spc) <= Min(Holds(r) - RESFTE, MaxCls(r.fat))
    ensures Enough(r) && !Trims(r)
  {
    hide MetaData, EntriesIn, Between, MaxCls, Start, Holds;
    RoomFor(r);
    BetweenFalls(Start(r), Start(r) + r.again, r.bsec, r.spc);
    BetweenAtLeast(Start(r) + r.again, r.bsec, r.spc, MaxCls(r.fat) + 1);
  }

  /** With more reserved sectors and larger FATs the estimate asks for no more. */
  lemma AskedFalls(fat: nat, c: Bpb, more: nat, rds: nat, spf: nat)
    requires c.bps > 0 && c.spc > 0 && spf >= 1 && c.res < more && MetaData(more, rds, spf, c.nft) <= c.bsec
    requires MetaData(c.res, rds, 1, c.nft) <= c.bsec
    requires var left := c.bsec - MetaData(c.res, rds, 1, c.nft);
      RemainderKept(fat, c, left) && spf == FatSectors(fat, c, Estimate(fat, c, left))
    ensures AskedSpf(fat, c.(res := more), rds, spf) <= spf
  {
    hide FatSectors, MetaData, Estimate, RemainderKept, MaxCls;
    var left, less := c.bsec - MetaData(c.res, rds, 1, c.nft), c.bsec - MetaData(more, rds, spf, c.nft);
    LaterStart(c.res, more, rds, spf, c.nft);
    EstimateFalls(fat, c, left, less);
    SameOther(fat, c, c.(res := more), less);
    FatSectorsRise(fat, c, Min(Estimate(fat, c, less), MaxCls(fat)), Estimate(fat, c, left));
  }
}
