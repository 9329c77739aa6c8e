/** The alignment passes of `newfs_msdos`. */
module FatFormat {
  import opened Arith
  import opened Buffers
  import opened FatLayout

  // ----- Alignment -----

  lemma {:induction false} PickSpcMultiple(fixed: nat, clusters: nat, bsec: nat, spc: nat)
    requires spc >= 1
    ensures PickSpc(fixed, clusters, bsec, spc) % spc == 0
    decreases MAXSPC - spc
  {
    var r := PickSpc(fixed, clusters, bsec, spc);
    if r == spc {
      DivUnique(r, 1, spc);
    } else {
      PickSpcMultiple(fixed, clusters, bsec, 2 * spc);
      MultipleOfHalf(r, spc);
    }
  }

  lemma MultipleOfHalf(r: nat, spc: nat)
    requires spc >= 1 && r % (2 * spc) == 0
    ensures r % spc == 0
  {
    var k := r / (2 * spc);
    assert r == k * (2 * spc) == (2 * k) * spc;
    DivMultiple(2 * k, spc);
  }

  /** With more fixed sectors the cluster size only gets smaller, by halves. */
  lemma {:induction false} PickSpcDivides(fixed: nat, more: nat, clusters: nat, bsec: nat, spc: nat)
    requires spc >= 1 && fixed <= more
    ensures PickSpc(fixed, clusters, bsec, spc) % PickSpc(more, clusters, bsec, spc) == 0
    decreases MAXSPC - spc
  {
    if spc < MAXSPC && more + (clusters + 1) * spc <= bsec {
      PickSpcDivides(fixed, more, clusters, bsec, 2 * spc);
    } else {
      PickSpcMultiple(fixed, clusters, bsec, spc);
    }
  }

  lemma AlignedSum(m: nat, s: nat, t: nat)
    requires s >= 1 && t >= 1 && s % t == 0
    ensures (m + s - m % s) % t == 0
  {
    var q, r := m / s, s / t;
    assert m + s - m % s == q * s + s;
    assert s == r * t;
    assert q * s + s == (q * r + r) * t by {
      assert q * (r * t) == q * r * t;
    }
    DivMultiple(q * r + r, t);
  }

  /** The sector after the FATs, which is to be aligned. */
  function AfterFats(b: Bpb): nat { b.res + b.bspf * b.nft }

  /** What the second pass starts from. */
  lemma {:induction false} SecondPass(u: Setup, b: Bpb)
    requires SetupOk(u) && u.align && Parsed(b) && CanSize(u, b) && (b.bspf == 0 ==> u.setSpf)
    ensures var p, last := OnePass(u, b, 0, 0), Sizing(u, b, 0, 0);
      if p.Bad? || p.alignment == 0 then last == p
      else p.alignment < p.b.spc && last == OnePass(u, p.b, p.b.spc - p.alignment, 1)
           && p.extra == p.b.spc - p.alignment
  {
    hide PickSpc, FixedSectors, RootSectors, DefaultSpc, FatSectors, Clusters, MetaData, BaseReserved;
    var p := OnePass(u, b, 0, 0);
    if p.Sized? && p.alignment != 0 {
      assert Sizing(u, b, 0, 0) == Sizing(u, p.b, p.extra, 1);
    }
  }

  lemma FatPositive(fat: nat, b: Bpb, clusters: nat)
    requires FatType(fat) && b.bps > 0
    ensures FatSectors(fat, b, clusters) >= 1
  {
    assert (RESFTE + clusters) * Nibbles(fat) >= 1;
    CeilDivPositive((RESFTE + clusters) * Nibbles(fat), NibblesPerSector(b));
  }

  /** The fields of a pass that the next one starts from or that decide alignment. */
  lemma PassFields(u: Setup, b: Bpb, extra: nat, attempts: nat)
    requires SetupOk(u) && u.setRes && CanSize(u, b) && (b.bspf == 0 ==> u.setSpf)
    ensures var p := OnePass(u, b, extra, attempts);
      p.Sized? ==>
        && p.b.spc == Chosen(u, b, extra).spc >= 1 && p.b.bps == b.bps && p.b.nft == b.nft && p.b.bsec == b.bsec
        && p.b.res == BaseReserved(u, b.bps) + extra && p.b.rde == RootEntries(u.fat, b.rde)
        && p.b.bspf >= 1 && (b.bspf >= 1 ==> p.b.bspf == b.bspf)
        && p.alignment == AfterFats(p.b) % p.b.spc
  {
    hide PickSpc, FixedSectors, RootSectors, DefaultSpc, FatSectors, Estimate, MetaData, BaseReserved, MaxCls;
    var p := OnePass(u, b, extra, attempts);
    if p.Sized? {
      var c := Chosen(u, b, extra);
      FatPositive(u.fat, c, Clusters(u.fat, c, MetaData(c.res, RootSectors(u.fat, c), FirstSpf(c), c.nft)));
    }
  }

  /** The cluster size of the second pass divides that of the first. */
  lemma SecondSpcDivides(u: Setup, b: Bpb, p: Sized)
    requires SetupOk(u) && u.setRes && CanSize(u, b) && (b.bspf == 0 ==> u.setSpf)
    requires p.Sized? && p == OnePass(u, b, 0, 0) && p.b.spc >= 1
    ensures p.b.spc % Chosen(u, p.b, p.b.spc - p.alignment).spc == 0
  {
    hide PickSpc, DefaultSpc, OnePass, MaxCls, CeilDiv, BaseReserved;
    PassFields(u, b, 0, 0);
    var c, d := Chosen(u, b, 0), Chosen(u, p.b, p.b.spc - p.alignment);
    if u.setSpc {
      var fixed, more := FixedSectors(u.fat, c, c.res), FixedSectors(u.fat, d, d.res);
      assert c.spc == PickSpc(fixed, MaxCls(u.fat), b.bsec, DefaultSpc(u.fat, b.bps));
      assert d.spc == PickSpc(more, MaxCls(u.fat), b.bsec, DefaultSpc(u.fat, b.bps));
      PickSpcDivides(fixed, more, MaxCls(u.fat), b.bsec, DefaultSpc(u.fat, b.bps));
    } else {
      DivUnique(p.b.spc, 1, p.b.spc);
    }
  }

  /** With `-A` the loop ends within two passes with the root directory, or the first
      cluster, at a multiple of the cluster size, and the FAT size of the first pass. */
  lemma {:induction false} AlignedInTwoPasses(u: Setup, b: Bpb)
    requires SetupOk(u) && u.align && u.setRes && Parsed(b) && CanSize(u, b) && (b.bspf == 0 ==> u.setSpf)
    ensures var p := Sizing(u, b, 0, 0);
      p.Sized? ==>
        && p.attempts <= 2 && p.alignment == 0 && p.b.spc >= 1
        && AfterFats(p.b) % p.b.spc == 0
        && OnePass(u, b, 0, 0).Sized? && p.b.bspf == OnePass(u, b, 0, 0).b.bspf
  {
    hide OnePass, Sizing, Chosen, BaseReserved, AfterFats;
    SecondPass(u, b);
    PassFields(u, b, 0, 0);
    PassAttempts(u, b, 0, 0);
    var p, last := OnePass(u, b, 0, 0), Sizing(u, b, 0, 0);
    if p.Sized? && p.alignment != 0 {
      var extra := p.b.spc - p.alignment;
      PassFields(u, p.b, extra, 1);
      PassAttempts(u, p.b, extra, 1);
      SecondSpcDivides(u, b, p);
      if last.Sized? {
        MovedBy(p.b, last.b, extra);
        AlignedSum(AfterFats(p.b), p.b.spc, last.b.spc);
      }
    }
  }

  lemma MovedBy(b: Bpb, c: Bpb, extra: nat)
    requires c.res == b.res + extra && c.bspf == b.bspf && c.nft == b.nft
    ensures AfterFats(c) == AfterFats(b) + extra
  {
  }

  lemma PassAttempts(u: Setup, b: Bpb, extra: nat, attempts: nat)
    requires CanSize(u, b)
    ensures var p := OnePass(u, b, extra, attempts); p.Sized? ==> p.attempts == attempts + 1
  {
    hide Chosen, RootSectors, FatSectors, Clusters, MetaData, Alignment, Extra;
  }
}
