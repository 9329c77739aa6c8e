/** Which objects the MTP server tells the database the end of: directories exactly when
    they could be made, and a SendObject that nothing announced as an end of no object. */
module MtpSends {
  import opened MtpSession

  // ----- Directories -----

  /** The calls of a log about directories. */
  predicate OfDir(c: Call) { (c.BeginSend? || c.EndSend?) && c.format == ASSOCIATION }

  function DirsOf(log: seq<Call>): seq<Call> {
    if log == [] then []
    else DirsOf(log[..|log| - 1]) + if OfDir(log[|log| - 1]) then [log[|log| - 1]] else []
  }

  /** A request that announces a directory, for which the database gives a handle. */
  predicate BeginsDir(r: Request) {
    && r.command && r.op.SendObjectInfo? && r.op.info.Begun?
    && r.op.info.handle != INVALID_HANDLE && r.op.info.format == ASSOCIATION
  }

  /** What the database is told of directories by one request and by a sequence of them. */
  function MadeBy(r: Request): seq<Call> {
    if !BeginsDir(r) then []
    else [BeginSend(r.op.info.handle, ASSOCIATION)]
         + if r.op.info.dirMade then [EndSend(r.op.info.handle, ASSOCIATION, true)] else []
  }

  function Made(rs: seq<Request>): seq<Call> {
    if rs == [] then [] else Made(rs[..|rs| - 1]) + MadeBy(rs[|rs| - 1])
  }

  lemma {:induction false} DirsAppend(log: seq<Call>, more: seq<Call>)
    ensures DirsOf(log + more) == DirsOf(log) + DirsOf(more)
  {
    if more == [] {
      assert log + more == log;
    } else {
      var n := |more| - 1;
      DirsAppend(log, more[..n]);
      assert (log + more)[..|log| + n] == log + more[..n];
    }
  }

  lemma {:induction false} DirsOne(c: Call)
    ensures DirsOf([c]) == if OfDir(c) then [c] else []
  {
    assert [c][..0] == [];
  }

  /** One request, whatever it gives up or does besides. */
  lemma HandleDirs(s: Server, r: Request)
    requires s.format != ASSOCIATION
    ensures DirsOf(Handle(s, r).log) == DirsOf(s.log) + MadeBy(r)
  {
    hide DirsOf, FindEdit;
    var t := GiveUp(s, r.op);
    var gone := EndSend(s.sending, s.format, false);
    DirsAppend(s.log, [gone]);
    DirsOne(gone);
    if r.command { PerformDirs(t, r); }
  }

  lemma PerformDirs(s: Server, r: Request)
    requires s.format != ASSOCIATION && r.command
    ensures DirsOf(Perform(s, r.op).server.log) == DirsOf(s.log) + MadeBy(r)
  {
    hide DirsOf, FindEdit;
    match r.op
    case OpenSession(_, _) => AppendOther(s.log, SessionStarted);
    case CloseSession => AppendOther(s.log, SessionEnded);
    case SendObjectInfo(info) => if info.Begun? { InfoDirs(s, r); }
    case SendObject(transfer) =>
      AppendOther(s.log, EndSend(s.sending, s.format, s.sending != INVALID_HANDLE && transfer == Received(Ok)));
    case BeginEditObject(_, handle, _) => AppendOther(s.log, OpenEdit(handle));
    case EndEditObject(_, handle) =>
      FindEditFinds(s.edits, handle);
      if FindEdit(s.edits, handle).Some? { AppendOther(s.log, Committed(s.edits[FindEdit(s.edits, handle).value])); }
    case Other(_) =>
  }

  lemma {:induction false} AppendOther(log: seq<Call>, c: Call)
    ensures !OfDir(c) ==> DirsOf(log + [c]) == DirsOf(log)
  {
    hide DirsOf;
    DirsAppend(log, [c]);
    DirsOne(c);
  }

  lemma InfoDirs(s: Server, r: Request)
    requires r.command && r.op.SendObjectInfo? && r.op.info.Begun?
    ensures DirsOf(Perform(s, r.op).server.log) == DirsOf(s.log) + MadeBy(r)
  {
    hide DirsOf;
    var begin := BeginSend(r.op.info.handle, r.op.info.format);
    var end := EndSend(r.op.info.handle, ASSOCIATION, true);
    DirsAppend(s.log, [begin]);
    DirsAppend(s.log + [begin], [end]);
    DirsOne(begin);
    DirsOne(end);
    assert DirsOf(s.log) + [begin] + [end] == DirsOf(s.log) + ([begin] + [end]);
  }

  lemma {:induction false} CommitsNoDirs(edits: seq<Edit>)
    ensures DirsOf(Commits(edits)) == []
  {
    if edits != [] {
      var n := |edits| - 1;
      CommitsNoDirs(edits[..n]);
      assert Commits(edits)[..n] == Commits(edits[..n]) by { CommitsLength(edits[..n]); }
    }
  }

  lemma {:induction false} CommitsLength(edits: seq<Edit>)
    ensures |Commits(edits)| == |edits|
  {
    if edits != [] { CommitsLength(edits[..|edits| - 1]); }
  }

  lemma {:induction false} ServeDirs(rs: seq<Request>)
    ensures DirsOf(Serve(Created, rs).log) == Made(rs)
  {
    hide Inv, Handle;
    if rs != [] {
      var before := rs[..|rs| - 1];
      ServeDirs(before);
      ServeKeeps(before);
      FormatKept(Serve(Created, before));
      HandleDirs(Serve(Created, before), rs[|rs| - 1]);
    }
  }

  lemma FormatKept(s: Server)
    requires Inv(s)
    ensures s.format != ASSOCIATION
  {
  }

  /** Over any run that ends in exit, the database is told of directories exactly what
      the requests that announce them say: a begin, and at once an end if it was made. */
  lemma {:induction false} DirectoriesExact(rs: seq<Request>)
    ensures DirsOf(Exit(Serve(Created, rs)).log) == Made(rs)
  {
    hide DirsOf, Serve, Commits;
    var s := Serve(Created, rs);
    ServeDirs(rs);
    CommitsNoDirs(s.edits);
    DirsAppend(s.log, Commits(s.edits));
    DirsAppend(s.log + Commits(s.edits), if s.open then [SessionEnded] else []);
    DirsOne(SessionEnded);
    NoDirs();
  }

  lemma NoDirs()
    ensures DirsOf([]) == []
  {
  }

  lemma {:induction false} MadeLast(rs: seq<Request>, r: Request)
    ensures Made(rs + [r]) == Made(rs) + MadeBy(r)
  {
    hide MadeBy;
    assert (rs + [r])[..|rs|] == rs;
  }

  lemma NoneMade()
    ensures Made([]) == []
  {
  }

  lemma {:induction false} MadeAppend(rs: seq<Request>, more: seq<Request>)
    ensures Made(rs + more) == Made(rs) + Made(more)
  {
    hide Made, MadeBy;
    if more == [] {
      NoneMade();
      assert rs + more == rs;
    } else {
      var n := |more| - 1;
      MadeAppend(rs, more[..n]);
      MadeLast(more[..n], more[n]);
      MadeLast(rs + more[..n], more[n]);
      assert more[..n] + [more[n]] == more;
      assert rs + more[..n] + [more[n]] == rs + more;
    }
  }

  lemma SplitAt<T>(s: seq<T>, i: nat)
    requires i < |s|
    ensures s == s[..i] + [s[i]] + s[i + 1..]
  {
  }

  lemma {:induction false} MadeSplit(rs: seq<Request>, i: nat)
    requires i < |rs|
    ensures Made(rs) == Made(rs[..i]) + MadeBy(rs[i]) + Made(rs[i + 1..])
  {
    hide Made, MadeBy;
    SplitAt(rs, i);
    MadeLast(rs[..i], rs[i]);
    MadeAppend(rs[..i] + [rs[i]], rs[i + 1..]);
  }

  lemma {:induction false} MadeBegins(rs: seq<Request>)
    ensures Made(rs) != [] ==> Made(rs)[0].BeginSend?
  {
    if rs != [] { MadeBegins(rs[..|rs| - 1]); }
  }

  /** Among what the database is told of directories, the begin of a directory is followed
      by its end exactly if the directory could be made; nothing else ends it. */
  lemma {:induction false} DirectoryEnded(rs: seq<Request>, i: nat)
    requires i < |rs| && BeginsDir(rs[i])
    ensures var d, k := DirsOf(Exit(Serve(Created, rs)).log), |Made(rs[..i])|;
      && k < |d| && d[k] == BeginSend(rs[i].op.info.handle, ASSOCIATION)
      && (k + 1 < |d| && d[k + 1].EndSend? <==> rs[i].op.info.dirMade)
      && (rs[i].op.info.dirMade ==> d[k + 1] == EndSend(rs[i].op.info.handle, ASSOCIATION, true))
  {
    hide DirsOf, Serve, Exit, Made;
    DirectoriesExact(rs);
    MadeSplit(rs, i);
    MadeBegins(rs[i + 1..]);
  }

  /** Each directory begun is ended. */
  predicate AllEnded(d: seq<Call>) {
    forall k | 0 <= k < |d| && d[k].BeginSend? :: k + 1 < |d| && d[k + 1] == EndSend(d[k].handle, d[k].format, true)
  }

  /** The database knows the end of every directory exactly if every one could be made. */
  lemma {:induction false} AllEndedExactly(rs: seq<Request>)
    ensures AllEnded(DirsOf(Exit(Serve(Created, rs)).log))
            <==> forall r | r in rs && BeginsDir(r) :: r.op.info.dirMade
  {
    hide DirsOf, Serve, Exit, AllEnded;
    DirectoriesExact(rs);
    AllMade(rs);
  }

  lemma {:induction false} AllMade(rs: seq<Request>)
    ensures AllEnded(Made(rs)) <==> forall r | r in rs && BeginsDir(r) :: r.op.info.dirMade
  {
    if rs != [] {
      var n := |rs| - 1;
      AllMade(rs[..n]);
      AllEndedMore(Made(rs[..n]), MadeBy(rs[n]));
      assert rs == rs[..n] + [rs[n]];
    }
  }

  lemma AllEndedMore(d: seq<Call>, more: seq<Call>)
    requires more != [] ==> more[0].BeginSend?
    ensures AllEnded(d + more) <==> AllEnded(d) && AllEnded(more)
  {
    var all := d + more;
    assert forall k | 0 <= k < |d| :: all[k] == d[k];
    assert forall k | 0 <= k < |more| :: all[|d| + k] == more[k];
    if AllEnded(all) {
      forall k | 0 <= k < |more| && more[k].BeginSend?
        ensures k + 1 < |more| && more[k + 1] == EndSend(more[k].handle, more[k].format, true)
      {
        assert all[|d| + k + 1] == more[k + 1];
      }
    }
  }

  // ----- Ends of nothing -----

  /** The object that waits for SendObject after a sequence of requests: the one the last
      of them announced, or one from before when SendObject came in no command container
      or met no storage. */
  function Waiting(rs: seq<Request>): nat {
    if rs == [] then INVALID_HANDLE
    else
      var r := rs[|rs| - 1];
      if r.op.SendObject? then
        if r.command && r.op.transfer.Received? then INVALID_HANDLE else Waiting(rs[..|rs| - 1])
      else if r.command && r.op.SendObjectInfo? && r.op.info.Begun? && r.op.info.format != ASSOCIATION
      then r.op.info.handle
      else INVALID_HANDLE
  }

  lemma {:induction false} WaitingIs(rs: seq<Request>)
    ensures Serve(Created, rs).sending == Waiting(rs)
  {
    hide FindEdit;
    if rs != [] { WaitingIs(rs[..|rs| - 1]); }
  }

  /** At exit the objects announced and ended are paired, and the last announced one is
      left without an end exactly if the requests leave it waiting. */
  lemma {:induction false} WaitingExact(rs: seq<Request>)
    ensures Paired(SentOf(Exit(Serve(Created, rs)).log), Waiting(rs))
    ensures var sent := SentOf(Exit(Serve(Created, rs)).log); |sent| % 2 == 1 <==> Waiting(rs) != INVALID_HANDLE
  {
    hide Serve, Exit, SentOf, Waiting;
    ExitBalances(rs);
    WaitingIs(rs);
  }

  predicate Stray(c: Call) { c.EndSend? && c.handle == INVALID_HANDLE }

  /** SendObject while no object waits. */
  predicate SendsNothing(before: seq<Request>, r: Request) {
    r.command && r.op.SendObject? && r.op.transfer.Received? && Waiting(before) == INVALID_HANDLE
  }

  function Strays(log: seq<Call>): nat {
    if log == [] then 0 else Strays(log[..|log| - 1]) + if Stray(log[|log| - 1]) then 1 else 0
  }

  function SendsOfNothing(rs: seq<Request>): nat {
    if rs == [] then 0
    else SendsOfNothing(rs[..|rs| - 1]) + if SendsNothing(rs[..|rs| - 1], rs[|rs| - 1]) then 1 else 0
  }

  lemma {:induction false} StraysAppend(log: seq<Call>, more: seq<Call>)
    ensures Strays(log + more) == Strays(log) + Strays(more)
  {
    if more == [] {
      assert log + more == log;
    } else {
      var n := |more| - 1;
      StraysAppend(log, more[..n]);
      assert (log + more)[..|log| + n] == log + more[..n];
    }
  }

  lemma StraysOne(c: Call)
    ensures Strays([c]) == if Stray(c) then 1 else 0
  {
    assert [c][..0] == [];
  }

  lemma {:induction false} StraysMore(log: seq<Call>, c: Call)
    ensures Strays(log + [c]) == Strays(log) + if Stray(c) then 1 else 0
  {
    StraysAppend(log, [c]);
    StraysOne(c);
  }

  lemma HandleStrays(s: Server, r: Request)
    ensures Strays(Handle(s, r).log) == Strays(s.log)
      + if r.command && r.op.SendObject? && r.op.transfer.Received? && s.sending == INVALID_HANDLE then 1 else 0
  {
    hide Strays, FindEdit;
    var t := GiveUp(s, r.op);
    StraysMore(s.log, EndSend(s.sending, s.format, false));
    if r.command {
      match r.op
      case OpenSession(_, _) => StraysMore(t.log, SessionStarted);
      case CloseSession => StraysMore(t.log, SessionEnded);
      case SendObjectInfo(info) =>
        if info.Begun? {
          var begin := BeginSend(info.handle, info.format);
          StraysMore(t.log, begin);
          StraysMore(t.log + [begin], EndSend(info.handle, ASSOCIATION, true));
        }
      case SendObject(transfer) =>
        StraysMore(t.log, EndSend(t.sending, t.format, t.sending != INVALID_HANDLE && transfer == Received(Ok)));
      case BeginEditObject(_, handle, _) => StraysMore(t.log, OpenEdit(handle));
      case EndEditObject(_, handle) =>
        FindEditFinds(t.edits, handle);
        if FindEdit(t.edits, handle).Some? { StraysMore(t.log, Committed(t.edits[FindEdit(t.edits, handle).value])); }
      case Other(_) =>
    }
  }

  lemma {:induction false} ServeStrays(rs: seq<Request>)
    ensures Strays(Serve(Created, rs).log) == SendsOfNothing(rs)
  {
    hide Handle, Waiting;
    if rs != [] {
      var before := rs[..|rs| - 1];
      ServeStrays(before);
      WaitingIs(before);
      HandleStrays(Serve(Created, before), rs[|rs| - 1]);
    }
  }

  lemma {:induction false} CommitsNoStrays(edits: seq<Edit>)
    ensures Strays(Commits(edits)) == 0
  {
    if edits != [] {
      var n := |edits| - 1;
      CommitsNoStrays(edits[..n]);
      CommitsLength(edits[..n]);
      assert Commits(edits)[..n] == Commits(edits[..n]);
    }
  }

  /** Over any run that ends in exit, the database is told the end of no object, with the
      invalid handle, once for each SendObject that came while no object waited. */
  lemma {:induction false} StraysExact(rs: seq<Request>)
    ensures Strays(Exit(Serve(Created, rs)).log) == SendsOfNothing(rs)
  {
    hide Serve, Commits;
    var s := Serve(Created, rs);
    ServeStrays(rs);
    CommitsNoStrays(s.edits);
    StraysAppend(s.log, Commits(s.edits));
    StraysAppend(s.log + Commits(s.edits), if s.open then [SessionEnded] else []);
    StraysOne(SessionEnded);
  }
}
