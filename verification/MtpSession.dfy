/** The request loop of the MTP server: sessions, object edits, and objects announced by
    SendObjectInfo, as the database sees them. The database and the file system answer
    through the fields of a request. */
module MtpSession {
  import opened Wrappers

  const INVALID_HANDLE := 0xffff_ffff
  const ASSOCIATION := 0x3001           // the format of a directory

  /** What the server does to the database, in order; `OpenEdit` marks an entry in the
      edit list, and `CommitEdit` is the `endSendObject` of `commitEdit`. */
  datatype Call = SessionStarted
                | SessionEnded
                | BeginSend(handle: nat, format: nat)
                | EndSend(handle: nat, format: nat, succeeded: bool)
                | OpenEdit(handle: nat)
                | CommitEdit(handle: nat, format: nat)

  datatype Edit = Edit(handle: nat, format: nat)

  datatype Server = Server(open: bool, id: nat, sending: nat, format: nat, edits: seq<Edit>, log: seq<Call>)

  const Created := Server(false, 0, INVALID_HANDLE, 0, [], [])

  datatype Code = Ok | SessionAlreadyOpen | SessionNotOpen | InvalidParameter | GeneralError | NoValidObjectInfo
                | Cancelled | OtherCode(code: nat)

  /** What SendObjectInfo meets: a check that fails before the database is told, a
      database without a handle, or a new object, with the outcome of `mkdir` if it is
      a directory. */
  datatype Info = Refused(code: Code) | NoHandle | Begun(handle: nat, format: nat, dirMade: bool)

  /** What SendObject meets: no storage, or a transfer with its result. */
  datatype Transfer = NoStorage | Received(code: Code)

  /** What BeginEditObject meets: no such object, a file that does not open, or one that does. */
  datatype File = Unknown(code: Code) | NotOpened | Opened(format: nat)

  datatype Operation = OpenSession(params: nat, id: nat)
                     | CloseSession
                     | SendObjectInfo(info: Info)
                     | SendObject(transfer: Transfer)
                     | BeginEditObject(params: nat, handle: nat, file: File)
                     | EndEditObject(params: nat, handle: nat)
                     | Other(code: Code)

  /** A request, and whether it came in a command container. */
  datatype Request = Request(command: bool, op: Operation)

  datatype Outcome = Outcome(server: Server, code: Code)

  // ----- The handlers -----

  /** Lines 347-352: an object announced but not sent next is given up. */
  function GiveUp(s: Server, op: Operation): Server {
    if s.sending != INVALID_HANDLE && !op.SendObject? then
      s.(log := s.log + [EndSend(s.sending, s.format, false)], sending := INVALID_HANDLE)
    else s
  }

  function AfterOpenSession(s: Server, params: nat, id: nat): Outcome {
    if s.open then Outcome(s, SessionAlreadyOpen)
    else if params < 1 then Outcome(s, InvalidParameter)
    else Outcome(s.(id := id, open := true, log := s.log + [SessionStarted]), Ok)
  }

  function AfterCloseSession(s: Server): Outcome {
    if !s.open then Outcome(s, SessionNotOpen)
    else Outcome(s.(id := 0, open := false, log := s.log + [SessionEnded]), Ok)
  }

  function AfterSendObjectInfo(s: Server, info: Info): Outcome {
    match info
    case Refused(code) => Outcome(s, code)
    case NoHandle => Outcome(s, GeneralError)
    case Begun(handle, format, dirMade) =>
      if handle == INVALID_HANDLE then Outcome(s, GeneralError)
      else
        var t := s.(log := s.log + [BeginSend(handle, format)]);
        if format != ASSOCIATION then Outcome(t.(sending := handle, format := format), Ok)
        else if !dirMade then Outcome(t, GeneralError)
        else Outcome(t.(log := t.log + [EndSend(handle, ASSOCIATION, true)]), Ok)
  }

  function AfterSendObject(s: Server, transfer: Transfer): Outcome {
    if transfer.NoStorage? then Outcome(s, GeneralError)
    else
      var code := if s.sending == INVALID_HANDLE then NoValidObjectInfo else transfer.code;
      Outcome(s.(log := s.log + [EndSend(s.sending, s.format, code.Ok?)], sending := INVALID_HANDLE, format := 0), code)
  }

  /** `getEditObject`: the first edit of a handle. */
  function FindEdit(edits: seq<Edit>, handle: nat): Option<nat> {
    if edits == [] then None
    else if edits[0].handle == handle then Some(0)
    else match FindEdit(edits[1..], handle) case None => None case Some(i) => Some(i + 1)
  }

  function AfterBeginEdit(s: Server, params: nat, handle: nat, file: File): Outcome {
    if params < 1 then Outcome(s, InvalidParameter)
    else if FindEdit(s.edits, handle).Some? then Outcome(s, GeneralError)
    else match file
      case Unknown(code) => Outcome(s, code)
      case NotOpened => Outcome(s, GeneralError)
      case Opened(format) =>
        Outcome(s.(edits := s.edits + [Edit(handle, format)], log := s.log + [OpenEdit(handle)]), Ok)
  }

  function AfterEndEdit(s: Server, params: nat, handle: nat): Outcome {
    if params < 1 then Outcome(s, InvalidParameter)
    else
      FindEditFinds(s.edits, handle);
      match FindEdit(s.edits, handle)
      case None => Outcome(s, GeneralError)
      case Some(i) =>
        Outcome(s.(edits := s.edits[..i] + s.edits[i + 1..],
                   log := s.log + [CommitEdit(handle, s.edits[i].format)]), Ok)
  }

  lemma {:induction false} FindEditFinds(edits: seq<Edit>, handle: nat)
    ensures match FindEdit(edits, handle)
      case None => forall e | e in edits :: e.handle != handle
      case Some(i) => i < |edits| && edits[i].handle == handle && forall j | 0 <= j < i :: edits[j].handle != handle
  {
    if edits != [] && edits[0].handle != handle {
      FindEditFinds(edits[1..], handle);
      assert edits == [edits[0]] + edits[1..];
    }
  }

  function Perform(s: Server, op: Operation): Outcome {
    match op
    case OpenSession(params, id) => AfterOpenSession(s, params, id)
    case CloseSession => AfterCloseSession(s)
    case SendObjectInfo(info) => AfterSendObjectInfo(s, info)
    case SendObject(transfer) => AfterSendObject(s, transfer)
    case BeginEditObject(params, handle, file) => AfterBeginEdit(s, params, handle, file)
    case EndEditObject(params, handle) => AfterEndEdit(s, params, handle)
    case Other(code) => Outcome(s, code)
  }

  /** `handleRequest` */
  function Handle(s: Server, r: Request): Server {
    var t := GiveUp(s, r.op);
    if r.command then Perform(t, r.op).server else t
  }

  /** No response follows a wrong container or a cancelled transaction. */
  function Responds(s: Server, r: Request): bool {
    r.command && !Perform(GiveUp(s, r.op), r.op).code.Cancelled?
  }

  function Commits(edits: seq<Edit>): seq<Call> {
    if edits == [] then [] else Commits(edits[..|edits| - 1]) + [Committed(edits[|edits| - 1])]
  }

  function Committed(e: Edit): Call { CommitEdit(e.handle, e.format) }

  /** The end of `run`: open edits are committed, an open session is ended. */
  function Exit(s: Server): Server {
    s.(log := s.log + Commits(s.edits) + (if s.open then [SessionEnded] else []), edits := [])
  }

  function Serve(s: Server, rs: seq<Request>): Server {
    if rs == [] then s else Handle(Serve(s, rs[..|rs| - 1]), rs[|rs| - 1])
  }

  // ----- Alternation -----

  /** A begin (true) or an end (false) of something the log is watched for. */
  datatype Watch = Sessions | Edits(handle: nat)

  function Turn(w: Watch, c: Call): Option<bool> {
    match w
    case Sessions => if c.SessionStarted? then Some(true) else if c.SessionEnded? then Some(false) else None
    case Edits(h) =>
      if c == OpenEdit(h) then Some(true) else if c.CommitEdit? && c.handle == h then Some(false) else None
  }

  /** The begins and ends in a log, in order. */
  function Turns(w: Watch, log: seq<Call>): seq<bool> {
    if log == [] then []
    else Turns(w, log[..|log| - 1]) +
         match Turn(w, log[|log| - 1]) case None => [] case Some(b) => [b]
  }

  /** Begin, end, begin, end, ..., with an open begin at the end or not. */
  predicate Alternates(turns: seq<bool>, open: bool) {
    (forall i | 0 <= i < |turns| :: turns[i] <==> i % 2 == 0) && (open <==> |turns| % 2 == 1)
  }

  predicate Proper(w: Watch, log: seq<Call>, open: bool) { Alternates(Turns(w, log), open) }

  lemma Append(w: Watch, log: seq<Call>, c: Call, open: bool)
    requires Proper(w, log, open)
    ensures Turn(w, c).None? ==> Proper(w, log + [c], open)
    ensures Turn(w, c) == Some(!open) ==> Proper(w, log + [c], !open)
  {
    assert (log + [c])[..|log|] == log;
  }

  /** An object announced and not a directory: the begins and ends of such objects. The
      end of no object, which SendObject tells when none was announced, is left out here;
      `MtpSends.StraysExact` counts those. */
  datatype Sent = Sent(begin: bool, handle: nat)

  function SentBy(c: Call): Option<Sent> {
    match c
    case BeginSend(h, f) => if f != ASSOCIATION then Some(Sent(true, h)) else None
    case EndSend(h, f, _) => if f != ASSOCIATION && h != INVALID_HANDLE then Some(Sent(false, h)) else None
    case _ => None
  }

  function SentOf(log: seq<Call>): seq<Sent> {
    if log == [] then []
    else SentOf(log[..|log| - 1]) +
         match SentBy(log[|log| - 1]) case None => [] case Some(x) => [x]
  }

  /** Each begin is followed by the end of the same handle before the next begin; the
      last may still be waiting. */
  predicate Paired(sent: seq<Sent>, waiting: nat) {
    && (forall i | 0 <= i < |sent| :: sent[i].begin <==> i % 2 == 0)
    && (forall i | 0 <= i < |sent| && i % 2 == 1 :: sent[i].handle == sent[i - 1].handle)
    && if |sent| % 2 == 1 then sent[|sent| - 1].handle == waiting != INVALID_HANDLE else waiting == INVALID_HANDLE
  }

  lemma {:induction false} SentAppend(log: seq<Call>, c: Call, waiting: nat)
    requires Paired(SentOf(log), waiting)
    ensures SentBy(c).None? ==> Paired(SentOf(log + [c]), waiting)
    ensures waiting == INVALID_HANDLE ==> forall h | h != INVALID_HANDLE && SentBy(c) == Some(Sent(true, h)) ::
              Paired(SentOf(log + [c]), h)
    ensures waiting != INVALID_HANDLE && SentBy(c) == Some(Sent(false, waiting)) ==>
              Paired(SentOf(log + [c]), INVALID_HANDLE)
  {
    assert (log + [c])[..|log|] == log;
  }

  // ----- The invariant -----

  predicate Distinct(edits: seq<Edit>) {
    forall i, j | 0 <= i < j < |edits| :: edits[i].handle != edits[j].handle
  }

  predicate IsOpen(edits: seq<Edit>, handle: nat) { exists e :: e in edits && e.handle == handle }

  /** The database is told of a directory's end right after its begin, or never. */
  predicate DirsAtOnce(log: seq<Call>) {
    forall i | 0 <= i < |log| :: log[i].EndSend? && log[i].format == ASSOCIATION ==>
      i > 0 && log[i - 1] == BeginSend(log[i].handle, ASSOCIATION)
  }

  /** Sessions alternate, no handle has two open edits, edits of each handle alternate,
      and at most one object that is not a directory waits for its end. */
  ghost predicate Inv(s: Server) {
    && Proper(Sessions, s.log, s.open)
    && Distinct(s.edits)
    && (forall h: nat :: Proper(Edits(h), s.log, IsOpen(s.edits, h)))
    && Paired(SentOf(s.log), s.sending)
    && DirsAtOnce(s.log)
    && s.format != ASSOCIATION
  }

  lemma CreatedOk()
    ensures Inv(Created)
  {
  }

  /** A call about a send leaves sessions and edits alone. */
  lemma SendCallKeeps(s: Server, t: Server, c: Call)
    requires Inv(s) && t.log == s.log + [c] && t.open == s.open && t.edits == s.edits
    requires c.BeginSend? || c.EndSend?
    requires Paired(SentOf(t.log), t.sending) && DirsAtOnce(t.log) && t.format != ASSOCIATION
    ensures Inv(t)
  {
    hide Proper, Distinct, IsOpen, Paired, SentOf, DirsAtOnce;
    Append(Sessions, s.log, c, s.open);
    forall h: nat ensures Proper(Edits(h), t.log, IsOpen(t.edits, h)) {
      Append(Edits(h), s.log, c, IsOpen(s.edits, h));
    }
  }

  lemma GiveUpKeeps(s: Server, op: Operation)
    requires Inv(s)
    ensures Inv(GiveUp(s, op)) && (!op.SendObject? ==> GiveUp(s, op).sending == INVALID_HANDLE)
  {
    hide Proper, Distinct, IsOpen, Paired, SentOf;
    if s.sending != INVALID_HANDLE && !op.SendObject? {
      var c := EndSend(s.sending, s.format, false);
      SentAppend(s.log, c, s.sending);
      SendCallKeeps(s, GiveUp(s, op), c);
    }
  }

  lemma SendObjectInfoKeeps(s: Server, info: Info)
    requires Inv(s) && s.sending == INVALID_HANDLE
    ensures Inv(AfterSendObjectInfo(s, info).server)
  {
    hide Proper, Distinct, IsOpen, Paired, SentOf;
    if info.Begun? && info.handle != INVALID_HANDLE {
      var c := BeginSend(info.handle, info.format);
      SentAppend(s.log, c, s.sending);
      var t := s.(log := s.log + [c]);
      if info.format != ASSOCIATION {
        SendCallKeeps(s, t.(sending := info.handle, format := info.format), c);
      } else {
        SendCallKeeps(s, t, c);
        var d := EndSend(info.handle, ASSOCIATION, true);
        SentAppend(t.log, d, t.sending);
        if info.dirMade { SendCallKeeps(t, t.(log := t.log + [d]), d); }
      }
    }
  }

  lemma SendObjectKeeps(s: Server, transfer: Transfer)
    requires Inv(s)
    ensures Inv(AfterSendObject(s, transfer).server)
  {
    hide Proper, Distinct, IsOpen, Paired, SentOf;
    if transfer.Received? {
      var t := AfterSendObject(s, transfer);
      var c := EndSend(s.sending, s.format, t.code.Ok?);
      SentAppend(s.log, c, s.sending);
      SendCallKeeps(s, t.server, c);
    }
  }

  /** A call about a session or an edit leaves sends alone. */
  lemma SendsAlone(s: Server, c: Call)
    requires Inv(s) && !c.BeginSend? && !c.EndSend?
    ensures Paired(SentOf(s.log + [c]), s.sending) && DirsAtOnce(s.log + [c])
  {
    hide Proper, Distinct, IsOpen, Paired, SentOf;
    SentAppend(s.log, c, s.sending);
  }

  lemma SessionCallKeeps(s: Server, t: Server, c: Call)
    requires Inv(s) && t == s.(open := !s.open, id := t.id, log := s.log + [c])
    requires c == if s.open then SessionEnded else SessionStarted
    ensures Inv(t)
  {
    hide Proper, Distinct, IsOpen, Paired, SentOf, DirsAtOnce;
    SendsAlone(s, c);
    Append(Sessions, s.log, c, s.open);
    forall h: nat ensures Proper(Edits(h), t.log, IsOpen(t.edits, h)) {
      Append(Edits(h), s.log, c, IsOpen(s.edits, h));
    }
  }

  lemma OpenEditKeeps(s: Server, handle: nat, format: nat)
    requires Inv(s) && !IsOpen(s.edits, handle)
    ensures Inv(s.(edits := s.edits + [Edit(handle, format)], log := s.log + [OpenEdit(handle)]))
  {
    hide Proper, Paired, SentOf, DirsAtOnce;
    var c := OpenEdit(handle);
    var edits := s.edits + [Edit(handle, format)];
    SendsAlone(s, c);
    Append(Sessions, s.log, c, s.open);
    forall h: nat ensures Proper(Edits(h), s.log + [c], IsOpen(edits, h)) {
      Append(Edits(h), s.log, c, IsOpen(s.edits, h));
      assert IsOpen(edits, h) <==> IsOpen(s.edits, h) || h == handle by {
        assert Edit(handle, format) in edits;
      }
    }
    assert forall i | 0 <= i < |s.edits| :: s.edits[i] in s.edits;
  }

  lemma RemoveEdit(edits: seq<Edit>, i: nat, h: nat)
    requires Distinct(edits) && i < |edits|
    ensures Distinct(edits[..i] + edits[i + 1..])
    ensures IsOpen(edits[..i] + edits[i + 1..], h) <==> IsOpen(edits, h) && h != edits[i].handle
  {
    var rest := edits[..i] + edits[i + 1..];
    forall e | e in edits && e.handle != edits[i].handle ensures e in rest {
      var j :| 0 <= j < |edits| && edits[j] == e;
      assert e == if j < i then rest[j] else rest[j - 1];
    }
    forall e | e in rest ensures e in edits && e.handle != edits[i].handle { }
  }

  lemma CommitKeeps(s: Server, i: nat)
    requires Inv(s) && i < |s.edits|
    ensures Inv(s.(edits := s.edits[..i] + s.edits[i + 1..], log := s.log + [Committed(s.edits[i])]))
  {
    hide Proper, Paired, SentOf, DirsAtOnce;
    var c := Committed(s.edits[i]);
    var rest := s.edits[..i] + s.edits[i + 1..];
    SendsAlone(s, c);
    Append(Sessions, s.log, c, s.open);
    RemoveEdit(s.edits, i, 0);
    forall h: nat ensures Proper(Edits(h), s.log + [c], IsOpen(rest, h)) {
      RemoveEdit(s.edits, i, h);
      Append(Edits(h), s.log, c, IsOpen(s.edits, h));
      assert s.edits[i] in s.edits;
    }
  }

  lemma PerformKeeps(s: Server, op: Operation)
    requires Inv(s) && (op.SendObject? || s.sending == INVALID_HANDLE)
    ensures Inv(Perform(s, op).server)
  {
    hide Inv, FindEdit;
    match op
    case OpenSession(params, id) =>
      if !s.open && params >= 1 { SessionCallKeeps(s, AfterOpenSession(s, params, id).server, SessionStarted); }
    case CloseSession =>
      if s.open { SessionCallKeeps(s, AfterCloseSession(s).server, SessionEnded); }
    case SendObjectInfo(info) => SendObjectInfoKeeps(s, info);
    case SendObject(transfer) => SendObjectKeeps(s, transfer);
    case BeginEditObject(params, handle, file) =>
      FindEditFinds(s.edits, handle);
      if params >= 1 && FindEdit(s.edits, handle).None? && file.Opened? {
        OpenEditKeeps(s, handle, file.format);
      }
    case EndEditObject(params, handle) =>
      FindEditFinds(s.edits, handle);
      if params >= 1 && FindEdit(s.edits, handle).Some? { CommitKeeps(s, FindEdit(s.edits, handle).value); }
    case Other(_) =>
  }

  lemma HandleKeeps(s: Server, r: Request)
    requires Inv(s)
    ensures Inv(Handle(s, r))
  {
    hide Inv, GiveUp, Perform;
    GiveUpKeeps(s, r.op);
    if r.command { PerformKeeps(GiveUp(s, r.op), r.op); }
  }

  // ----- Whole runs -----

  lemma {:induction false} ServeKeeps(rs: seq<Request>)
    ensures Inv(Serve(Created, rs))
  {
    hide Inv, Handle;
    if rs == [] {
      CreatedOk();
    } else {
      ServeKeeps(rs[..|rs| - 1]);
      HandleKeeps(Serve(Created, rs[..|rs| - 1]), rs[|rs| - 1]);
    }
  }

  /** The exit loop after `k` commits. */
  function Draining(s: Server, k: nat): Server
    requires k <= |s.edits|
  {
    s.(edits := s.edits[k..], log := s.log + Commits(s.edits[..k]))
  }

  lemma {:induction false} DrainKeeps(s: Server, k: nat)
    requires Inv(s) && k <= |s.edits|
    ensures Inv(Draining(s, k))
  {
    hide Inv;
    if k == 0 {
      assert Draining(s, 0) == s;
    } else {
      DrainKeeps(s, k - 1);
      var t := Draining(s, k - 1);
      CommitKeeps(t, 0);
      assert s.edits[..k][..k - 1] == s.edits[..k - 1];
      assert t.edits[..0] + t.edits[1..] == s.edits[k..];
      assert Draining(s, k).log == t.log + [Committed(t.edits[0])];
    }
  }

  /** Over any run that ends in exit: sessions started and ended alternate and balance;
      for each handle edits begun and committed do too, so each begun edit is committed
      exactly once; and objects announced are each ended before the next is begun,
      with the last left waiting if it was waiting at exit. */
  lemma {:induction false} ExitBalances(rs: seq<Request>)
    ensures var s := Serve(Created, rs);
      var x := Exit(s);
      && Proper(Sessions, x.log, false)
      && (forall h: nat :: Proper(Edits(h), x.log, false))
      && x.edits == [] && Distinct(s.edits)
      && Paired(SentOf(x.log), s.sending) && DirsAtOnce(x.log)
  {
    hide Proper, Paired, SentOf, Serve, DirsAtOnce, Commits;
    var s := Serve(Created, rs);
    ServeKeeps(rs);
    DrainKeeps(s, |s.edits|);
    assert s.edits[..|s.edits|] == s.edits;
    var t := Draining(s, |s.edits|);
    assert forall h: nat :: !IsOpen(t.edits, h);
    if s.open {
      SessionCallKeeps(t, t.(open := false, log := t.log + [SessionEnded]), SessionEnded);
    } else {
      assert Exit(s).log == t.log;
    }
  }

  /** Alternation in counts: as many ends as begins, or one fewer while one is open. */
  lemma {:induction false} AlternationCounts(turns: seq<bool>, open: bool)
    requires Alternates(turns, open)
    ensures multiset(turns)[true] == multiset(turns)[false] + if open then 1 else 0
  {
    if turns != [] {
      var n := |turns| - 1;
      AlternationCounts(turns[..n], !open);
      assert turns == turns[..n] + [turns[n]];
    }
  }

  /** A directory that could not be made is begun and never ended; `MtpSends.DirectoryEnded`
      says when a directory is. */
  lemma DirectoryNotEnded(handle: nat)
    requires handle != INVALID_HANDLE
    ensures var r := Request(true, SendObjectInfo(Begun(handle, ASSOCIATION, false)));
      Exit(Serve(Created, [r])).log == [BeginSend(handle, ASSOCIATION)]
  {
    var r := Request(true, SendObjectInfo(Begun(handle, ASSOCIATION, false)));
    assert [r][..0] == [];
    assert Serve(Created, [r]) == Handle(Created, r);
  }

  /** Exit does not end an object that still waits for SendObject. */
  lemma WaitingNotEnded(handle: nat, format: nat)
    requires handle != INVALID_HANDLE && format != ASSOCIATION
    ensures var r := Request(true, SendObjectInfo(Begun(handle, format, true)));
      Exit(Serve(Created, [r])).log == [BeginSend(handle, format)]
  {
    var r := Request(true, SendObjectInfo(Begun(handle, format, true)));
    assert [r][..0] == [];
    assert Serve(Created, [r]) == Handle(Created, r);
  }

  // ----- The server object -----

  class MtpServer {
    var mSessionOpen: bool
    var mSessionID: nat
    var mSendObjectHandle: nat
    var mSendObjectFormat: nat
    var mObjectEditList: seq<Edit>
    var mCalls: seq<Call>          // what the database was told

    ghost function View(): Server
      reads this
    {
      Server(mSessionOpen, mSessionID, mSendObjectHandle, mSendObjectFormat, mObjectEditList, mCalls)
    }

    constructor ()
      ensures View() == Created
    {
      mSessionOpen, mSessionID, mSendObjectHandle, mSendObjectFormat := false, 0, INVALID_HANDLE, 0;
      mObjectEditList, mCalls := [], [];
    }

    method Tell(c: Call)
      modifies this`mCalls
      ensures mCalls == old(mCalls) + [c]
    {
      mCalls := mCalls + [c];
    }

    /** `getEditObject` */
    method GetEditObject(handle: nat) returns (at: Option<nat>)
      ensures at == FindEdit(mObjectEditList, handle)
    {
      var i := 0;
      while i < |mObjectEditList|
        invariant i <= |mObjectEditList|
        invariant FindEdit(mObjectEditList, handle)
               == match FindEdit(mObjectEditList[i..], handle) case None => None case Some(k) => Some(i + k)
      {
        if mObjectEditList[i].handle == handle { return Some(i); }
        assert mObjectEditList[i..][1..] == mObjectEditList[i + 1..];
        i := i + 1;
      }
      return None;
    }

    /** `removeEditObject` */
    method RemoveEditObject(handle: nat)
      modifies this`mObjectEditList
      ensures match FindEdit(old(mObjectEditList), handle)
        case None => mObjectEditList == old(mObjectEditList)
        case Some(i) => i < |old(mObjectEditList)|
                        && mObjectEditList == old(mObjectEditList)[..i] + old(mObjectEditList)[i + 1..]
    {
      FindEditFinds(mObjectEditList, handle);
      var at := GetEditObject(handle);
      if at.Some? {
        mObjectEditList := mObjectEditList[..at.value] + mObjectEditList[at.value + 1..];
      }
    }

    method DoSendObjectInfo(info: Info) returns (code: Code)
      modifies this
      ensures AfterSendObjectInfo(old(View()), info) == Outcome(View(), code)
    {
      match info {
        case Refused(refusal) => return refusal;
        case NoHandle => return GeneralError;
        case Begun(handle, format, dirMade) =>
          if handle == INVALID_HANDLE { return GeneralError; }
          Tell(BeginSend(handle, format));
          if format == ASSOCIATION {
            if !dirMade { return GeneralError; }
            Tell(EndSend(handle, ASSOCIATION, true));
          } else {
            mSendObjectHandle := handle;
            mSendObjectFormat := format;
          }
          return Ok;
      }
    }

    method DoSendObject(transfer: Transfer) returns (code: Code)
      modifies this
      ensures AfterSendObject(old(View()), transfer) == Outcome(View(), code)
    {
      if transfer.NoStorage? { return GeneralError; }
      if mSendObjectHandle == INVALID_HANDLE { code := NoValidObjectInfo; } else { code := transfer.code; }
      Tell(EndSend(mSendObjectHandle, mSendObjectFormat, code == Ok));
      mSendObjectHandle := INVALID_HANDLE;
      mSendObjectFormat := 0;
    }

    method DoBeginEditObject(params: nat, handle: nat, file: File) returns (code: Code)
      modifies this
      ensures AfterBeginEdit(old(View()), params, handle, file) == Outcome(View(), code)
    {
      if params < 1 { return InvalidParameter; }
      var at := GetEditObject(handle);
      if at.Some? { return GeneralError; }
      match file {
        case Unknown(unknown) => return unknown;
        case NotOpened => return GeneralError;
        case Opened(format) =>
          mObjectEditList := mObjectEditList + [Edit(handle, format)];
          Tell(OpenEdit(handle));
          return Ok;
      }
    }

    method DoEndEditObject(params: nat, handle: nat) returns (code: Code)
      modifies this
      ensures AfterEndEdit(old(View()), params, handle) == Outcome(View(), code)
    {
      if params < 1 { return InvalidParameter; }
      FindEditFinds(mObjectEditList, handle);
      var at := GetEditObject(handle);
      if at.None? { return GeneralError; }
      Tell(CommitEdit(handle, mObjectEditList[at.value].format));
      RemoveEditObject(handle);
      return Ok;
    }

    /** `handleRequest`: whether a response is sent. */
    method HandleRequest(r: Request) returns (responds: bool)
      modifies this
      ensures View() == Handle(old(View()), r) && responds == Responds(old(View()), r)
    {
      hide AfterSendObjectInfo, AfterSendObject, AfterBeginEdit, AfterEndEdit;
      if mSendObjectHandle != INVALID_HANDLE && !r.op.SendObject? {
        Tell(EndSend(mSendObjectHandle, mSendObjectFormat, false));
        mSendObjectHandle := INVALID_HANDLE;
      }
      if !r.command { return false; }
      var code;
      match r.op {
        case OpenSession(params, id) =>
          if mSessionOpen {
            code := SessionAlreadyOpen;
          } else if params < 1 {
            code := InvalidParameter;
          } else {
            mSessionID := id;
            mSessionOpen := true;
            Tell(SessionStarted);
            code := Ok;
          }
        case CloseSession =>
          if !mSessionOpen {
            code := SessionNotOpen;
          } else {
            mSessionID := 0;
            mSessionOpen := false;
            Tell(SessionEnded);
            code := Ok;
          }
        case SendObjectInfo(info) => code := DoSendObjectInfo(info);
        case SendObject(transfer) => code := DoSendObject(transfer);
        case BeginEditObject(params, handle, file) => code := DoBeginEditObject(params, handle, file);
        case EndEditObject(params, handle) => code := DoEndEditObject(params, handle);
        case Other(other) => code := other;
      }
      return !code.Cancelled?;
    }

    /** The request loop of `run` and its exit. */
    method Run(rs: seq<Request>)
      requires View() == Created
      modifies this
      ensures View() == Exit(Serve(Created, rs))
    {
      hide Handle;
      var n := 0;
      while n < |rs|
        invariant n <= |rs| && View() == Serve(Created, rs[..n])
      {
        assert rs[..n + 1][..n] == rs[..n];
        var responds := HandleRequest(rs[n]);
        n := n + 1;
      }
      assert rs[..|rs|] == rs;
      ghost var s := View();
      var i := 0;
      while i < |mObjectEditList|
        invariant i <= |s.edits| && mObjectEditList == s.edits && View() == s.(log := s.log + Commits(s.edits[..i]))
      {
        assert s.edits[..i + 1][..i] == s.edits[..i];
        Tell(CommitEdit(mObjectEditList[i].handle, mObjectEditList[i].format));
        i := i + 1;
      }
      assert s.edits[..|s.edits|] == s.edits;
      mObjectEditList := [];
      if mSessionOpen { Tell(SessionEnded); }
    }
  }
}
