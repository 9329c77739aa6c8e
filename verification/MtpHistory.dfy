/** What the MTP server answers and tells the database, from the requests of a run alone:
    the session, the edits of each object, and the objects announced and sent. */
module MtpHistory {
  import opened Wrappers
  import opened MtpSession
  import opened MtpSends

  // ----- What a history of requests amounts to -----

  /** The open session. */
  function SessionAfter(rs: seq<Request>): Option<nat> {
    if rs == [] then None
    else
      var p, r := SessionAfter(rs[..|rs| - 1]), rs[|rs| - 1];
      if !r.command then p
      else match r.op
        case OpenSession(params, id) => if p.None? && params >= 1 then Some(id) else p
        case CloseSession => None
        case _ => p
  }

  /** The format of the open edit of an object. */
  function EditAfter(rs: seq<Request>, h: nat): Option<nat> {
    if rs == [] then None
    else
      var p, r := EditAfter(rs[..|rs| - 1], h), rs[|rs| - 1];
      if !r.command then p
      else match r.op
        case BeginEditObject(params, handle, file) =>
          if handle == h && params >= 1 && p.None? && file.Opened? then Some(file.format) else p
        case EndEditObject(params, handle) => if handle == h && params >= 1 then None else p
        case _ => p
  }

  /** A request that announces an object that is not a directory. */
  predicate Announces(r: Request) {
    r.command && r.op.SendObjectInfo? && r.op.info.Begun? && r.op.info.handle != INVALID_HANDLE
    && r.op.info.format != ASSOCIATION
  }

  predicate Receives(r: Request) { r.command && r.op.SendObject? && r.op.transfer.Received? }

  /** The format of the last object announced, until SendObject. */
  function FormatAfter(rs: seq<Request>): nat {
    if rs == [] then 0
    else
      var r := rs[|rs| - 1];
      if Announces(r) then r.op.info.format else if Receives(r) then 0 else FormatAfter(rs[..|rs| - 1])
  }

  // ----- What the server is after it -----

  ghost predicate Tells(rs: seq<Request>, s: Server) {
    && s.open == SessionAfter(rs).Some? && s.id == (if s.open then SessionAfter(rs).value else 0)
    && s.sending == Waiting(rs) && s.format == FormatAfter(rs)
    && (forall h: nat :: EditTells(rs, s.edits, h))
  }

  ghost predicate EditTells(rs: seq<Request>, edits: seq<Edit>, h: nat) {
    match FindEdit(edits, h)
    case None => EditAfter(rs, h) == None
    case Some(i) => i < |edits| && EditAfter(rs, h) == Some(edits[i].format)
  }

  lemma {:induction false} FindAppend(edits: seq<Edit>, e: Edit, h: nat)
    ensures FindEdit(edits + [e], h)
      == if FindEdit(edits, h).Some? then FindEdit(edits, h) else if e.handle == h then Some(|edits|) else None
  {
    if edits == [] {
      assert edits + [e] == [e];
    } else {
      assert (edits + [e])[1..] == edits[1..] + [e];
      FindAppend(edits[1..], e, h);
    }
  }

  /** Taking out the first edit of a handle, when there is no other of it. */
  lemma FindRemoved(edits: seq<Edit>, i: nat, h: nat)
    requires Distinct(edits) && i < |edits|
    ensures var rest := edits[..i] + edits[i + 1..];
      if h == edits[i].handle then FindEdit(rest, h) == None
      else match FindEdit(edits, h)
        case None => FindEdit(rest, h) == None
        case Some(k) => k < |edits| && FindEdit(rest, h).Some? && FindEdit(rest, h).value < |rest|
                        && rest[FindEdit(rest, h).value] == edits[k]
  {
    hide FindEdit;
    var rest := edits[..i] + edits[i + 1..];
    FindEditFinds(edits, h);
    FindEditFinds(rest, h);
    RemoveEdit(edits, i, h);
    assert forall j | 0 <= j < |rest| :: rest[j] == if j < i then edits[j] else edits[j + 1];
    if FindEdit(edits, h).Some? && h != edits[i].handle {
      var k := FindEdit(edits, h).value;
      assert edits[k] in edits;
      assert IsOpen(edits, h);
    } else if h != edits[i].handle {
      assert !IsOpen(edits, h);
    }
  }

  lemma EditStep(rs: seq<Request>, s: Server, r: Request, h: nat)
    requires Distinct(s.edits) && EditTells(rs, s.edits, h)
    ensures EditTells(rs + [r], Handle(s, r).edits, h)
  {
    hide FindEdit, Distinct;
    assert (rs + [r])[..|rs|] == rs;
    FindEditFinds(s.edits, h);
    if r.command {
      match r.op {
        case BeginEditObject(params, handle, file) =>
          if params >= 1 && FindEdit(s.edits, handle).None? && file.Opened? {
            FindAppend(s.edits, Edit(handle, file.format), h);
          }
        case EndEditObject(params, handle) =>
          FindEditFinds(s.edits, handle);
          if params >= 1 && FindEdit(s.edits, handle).Some? { FindRemoved(s.edits, FindEdit(s.edits, handle).value, h); }
        case _ =>
      }
    }
  }

  lemma {:induction false} SessionStep(rs: seq<Request>, s: Server, r: Request)
    requires s.open == SessionAfter(rs).Some? && s.id == (if s.open then SessionAfter(rs).value else 0)
    ensures var t := Handle(s, r);
      t.open == SessionAfter(rs + [r]).Some? && t.id == (if t.open then SessionAfter(rs + [r]).value else 0)
  {
    hide FindEdit;
    assert (rs + [r])[..|rs|] == rs;
  }

  lemma {:induction false} FormatStep(rs: seq<Request>, s: Server, r: Request)
    requires s.format == FormatAfter(rs)
    ensures Handle(s, r).format == FormatAfter(rs + [r])
  {
    hide FindEdit;
    assert (rs + [r])[..|rs|] == rs;
  }

  lemma {:induction false} HistoryTells(rs: seq<Request>)
    ensures Tells(rs, Serve(Created, rs))
  {
    hide Handle, SessionAfter, EditAfter, FormatAfter, Waiting, EditTells, Inv;
    WaitingIs(rs);
    if rs == [] {
      NoHistory();
    } else {
      var p, r := rs[..|rs| - 1], rs[|rs| - 1];
      var s := Serve(Created, p);
      HistoryTells(p);
      ServeKeeps(p);
      EditsDistinct(s);
      assert p + [r] == rs;
      SessionStep(p, s, r);
      FormatStep(p, s, r);
      forall h: nat ensures EditTells(rs, Handle(s, r).edits, h) { EditStep(p, s, r, h); }
    }
  }

  lemma NoHistory()
    ensures SessionAfter([]) == None && FormatAfter([]) == 0 && forall h: nat :: EditTells([], [], h)
  {
  }

  lemma EditsDistinct(s: Server)
    requires Inv(s)
    ensures Distinct(s.edits)
  {
  }

  // ----- The answers -----

  /** The response code to a request after a history. */
  function Answer(rs: seq<Request>, r: Request): Code {
    var s := Serve(Created, rs);
    Perform(GiveUp(s, r.op), r.op).code
  }

  /** The session requests are answered by whether a session is open; the last one opened
      keeps its id until it is closed, and no session has the id 0. */
  lemma {:induction false} SessionAnswers(rs: seq<Request>, r: Request)
    ensures r.op.OpenSession? ==>
      Answer(rs, r) == if SessionAfter(rs).Some? then SessionAlreadyOpen
                       else if r.op.params < 1 then InvalidParameter else Ok
    ensures r.op.CloseSession? ==> Answer(rs, r) == if SessionAfter(rs).Some? then Ok else SessionNotOpen
    ensures var s := Serve(Created, rs);
      s.open == SessionAfter(rs).Some? && s.id == (if s.open then SessionAfter(rs).value else 0)
  {
    hide Serve, SessionAfter, EditAfter, FormatAfter, Waiting, FindEdit;
    HistoryTells(rs);
  }

  /** The edit requests by whether the object is being edited, which the requests about it
      decide; no edit of another object matters. */
  lemma {:induction false} EditAnswers(rs: seq<Request>, r: Request)
    ensures r.op.BeginEditObject? ==>
      Answer(rs, r) == if r.op.params < 1 then InvalidParameter
                       else if EditAfter(rs, r.op.handle).Some? then GeneralError
                       else match r.op.file
                         case Unknown(code) => code
                         case NotOpened => GeneralError
                         case Opened(_) => Ok
    ensures r.op.EndEditObject? ==>
      Answer(rs, r) == if r.op.params < 1 then InvalidParameter
                       else if EditAfter(rs, r.op.handle).Some? then Ok else GeneralError
  {
    hide Serve, SessionAfter, EditAfter, FormatAfter, Waiting, FindEdit;
    HistoryTells(rs);
    if r.op.BeginEditObject? || r.op.EndEditObject? {
      var edits := Serve(Created, rs).edits;
      assert EditTells(rs, edits, r.op.handle);
      FindEditFinds(edits, r.op.handle);
    }
  }

  /** The send requests: a checked announcement is answered with Ok if the database gives a
      handle and, for a directory, it could be made; a transfer with its own result if an
      object was announced. */
  lemma {:induction false} SendAnswers(rs: seq<Request>, r: Request)
    ensures r.op.SendObjectInfo? ==>
      Answer(rs, r) == match r.op.info
        case Refused(code) => code
        case NoHandle => GeneralError
        case Begun(handle, format, dirMade) =>
          if handle == INVALID_HANDLE || (format == ASSOCIATION && !dirMade) then GeneralError else Ok
    ensures r.op.SendObject? ==>
      Answer(rs, r) == match r.op.transfer
        case NoStorage => GeneralError
        case Received(code) => if Waiting(rs) == INVALID_HANDLE then NoValidObjectInfo else code
  {
    hide Serve, SessionAfter, EditAfter, FormatAfter, Waiting, FindEdit;
    HistoryTells(rs);
  }

  /** A response follows every request in a command container but a cancelled transfer. */
  lemma {:induction false} RespondsExactly(rs: seq<Request>, r: Request)
    ensures Responds(Serve(Created, rs), r) <==> r.command && Answer(rs, r) != Cancelled
  {
    hide Serve, Perform;
  }

  // ----- What the database is told -----

  /** The calls about sessions, about the edits of one object, and about objects that are
      not directories. */
  datatype Topic = OfSessions | OfEdits(handle: nat) | OfObjects

  predicate About(w: Topic, c: Call) {
    match w
    case OfSessions => c.SessionStarted? || c.SessionEnded?
    case OfEdits(h) => (c.OpenEdit? || c.CommitEdit?) && c.handle == h
    case OfObjects => (c.BeginSend? || c.EndSend?) && c.format != ASSOCIATION
  }

  function Calls(w: Topic, log: seq<Call>): seq<Call> {
    if log == [] then [] else Calls(w, log[..|log| - 1]) + if About(w, log[|log| - 1]) then [log[|log| - 1]] else []
  }

  /** What one request has told, after a history. */
  function ToldBy(w: Topic, rs: seq<Request>, r: Request): seq<Call> {
    match w
    case OfSessions =>
      if !r.command then []
      else if r.op.OpenSession? && SessionAfter(rs).None? && r.op.params >= 1 then [SessionStarted]
      else if r.op.CloseSession? && SessionAfter(rs).Some? then [SessionEnded]
      else []
    case OfEdits(h) =>
      if !r.command then []
      else if r.op.BeginEditObject? && r.op.handle == h && r.op.params >= 1 && EditAfter(rs, h).None? && r.op.file.Opened?
      then [OpenEdit(h)]
      else if r.op.EndEditObject? && r.op.handle == h && r.op.params >= 1 && EditAfter(rs, h).Some?
      then [CommitEdit(h, EditAfter(rs, h).value)]
      else []
    case OfObjects =>
      (if Waiting(rs) != INVALID_HANDLE && !r.op.SendObject? then [EndSend(Waiting(rs), FormatAfter(rs), false)] else [])
      + if Announces(r) then [BeginSend(r.op.info.handle, r.op.info.format)]
        else if Receives(r) then
          [EndSend(Waiting(rs), FormatAfter(rs), Waiting(rs) != INVALID_HANDLE && r.op.transfer.code == Ok)]
        else []
  }

  function Told(w: Topic, rs: seq<Request>): seq<Call> {
    if rs == [] then [] else Told(w, rs[..|rs| - 1]) + ToldBy(w, rs[..|rs| - 1], rs[|rs| - 1])
  }

  lemma {:induction false} CallsAppend(w: Topic, log: seq<Call>, more: seq<Call>)
    ensures Calls(w, log + more) == Calls(w, log) + Calls(w, more)
  {
    if more == [] {
      assert log + more == log;
    } else {
      var n := |more| - 1;
      CallsAppend(w, log, more[..n]);
      assert (log + more)[..|log| + n] == log + more[..n];
    }
  }

  lemma {:induction false} CallsMore(w: Topic, log: seq<Call>, c: Call)
    ensures Calls(w, log + [c]) == Calls(w, log) + if About(w, c) then [c] else []
  {
    assert (log + [c])[..|log|] == log;
  }

  lemma {:induction false} HandleTold(w: Topic, rs: seq<Request>, s: Server, r: Request)
    requires Tells(rs, s) && Distinct(s.edits) && s.format != ASSOCIATION
    ensures Calls(w, Handle(s, r).log) == Calls(w, s.log) + ToldBy(w, rs, r)
  {
    hide Calls, FindEdit, SessionAfter, EditAfter, FormatAfter, Waiting, Distinct, Perform;
    var t := GiveUp(s, r.op);
    CallsMore(w, s.log, EndSend(s.sending, s.format, false));
    if r.command { PerformTold(w, rs, s, t, r); }
  }

  /** The part of it about an object given up. */
  function GivenUp(w: Topic, rs: seq<Request>, r: Request): seq<Call> {
    if w.OfObjects? && Waiting(rs) != INVALID_HANDLE && !r.op.SendObject? then [EndSend(Waiting(rs), FormatAfter(rs), false)]
    else []
  }

  lemma {:induction false} PerformTold(w: Topic, rs: seq<Request>, s: Server, t: Server, r: Request)
    requires Tells(rs, s) && s.format != ASSOCIATION && r.command && t == GiveUp(s, r.op)
    requires Calls(w, t.log) == Calls(w, s.log) + GivenUp(w, rs, r)
    ensures Calls(w, Perform(t, r.op).server.log) == Calls(w, s.log) + ToldBy(w, rs, r)
  {
    hide Calls, Tells, ToldBy, Perform, GivenUp, GiveUp;
    match r.op
    case OpenSession(_, _) => SessionTold(w, rs, s, t, r);
    case CloseSession => SessionTold(w, rs, s, t, r);
    case SendObjectInfo(_) => SendTold(w, rs, s, t, r);
    case SendObject(_) => SendTold(w, rs, s, t, r);
    case BeginEditObject(_, _, _) => EditTold(w, rs, s, t, r);
    case EndEditObject(_, _) => EditTold(w, rs, s, t, r);
    case Other(_) => OtherTold(w, rs, s, t, r);
  }

  lemma {:induction false} SessionTold(w: Topic, rs: seq<Request>, s: Server, t: Server, r: Request)
    requires Tells(rs, s) && s.format != ASSOCIATION && r.command && t == GiveUp(s, r.op)
    requires r.op.OpenSession? || r.op.CloseSession?
    requires Calls(w, t.log) == Calls(w, s.log) + GivenUp(w, rs, r)
    ensures Calls(w, Perform(t, r.op).server.log) == Calls(w, s.log) + ToldBy(w, rs, r)
  {
    hide Calls, FindEdit, SessionAfter, EditAfter, FormatAfter, Waiting;
    CallsMore(w, t.log, SessionStarted);
    CallsMore(w, t.log, SessionEnded);
  }

  lemma {:induction false} SendTold(w: Topic, rs: seq<Request>, s: Server, t: Server, r: Request)
    requires Tells(rs, s) && s.format != ASSOCIATION && r.command && t == GiveUp(s, r.op)
    requires r.op.SendObjectInfo? || r.op.SendObject?
    requires Calls(w, t.log) == Calls(w, s.log) + GivenUp(w, rs, r)
    ensures Calls(w, Perform(t, r.op).server.log) == Calls(w, s.log) + ToldBy(w, rs, r)
  {
    hide Calls, FindEdit, SessionAfter, EditAfter, FormatAfter, Waiting, EditTells;
    if r.op.SendObjectInfo? && r.op.info.Begun? {
      var info := r.op.info;
      CallsMore(w, t.log, BeginSend(info.handle, info.format));
      CallsMore(w, t.log + [BeginSend(info.handle, info.format)], EndSend(info.handle, ASSOCIATION, true));
    }
    if r.op.SendObject? && r.op.transfer.Received? {
      CallsMore(w, t.log, EndSend(t.sending, t.format, t.sending != INVALID_HANDLE && r.op.transfer.code == Ok));
    }
  }

  lemma {:induction false} EditTold(w: Topic, rs: seq<Request>, s: Server, t: Server, r: Request)
    requires Tells(rs, s) && s.format != ASSOCIATION && r.command && t == GiveUp(s, r.op)
    requires r.op.BeginEditObject? || r.op.EndEditObject?
    requires Calls(w, t.log) == Calls(w, s.log) + GivenUp(w, rs, r)
    ensures Calls(w, Perform(t, r.op).server.log) == Calls(w, s.log) + ToldBy(w, rs, r)
  {
    hide Calls, FindEdit, SessionAfter, EditAfter, FormatAfter, Waiting;
    var handle := r.op.handle;
    assert EditTells(rs, s.edits, handle);
    FindEditFinds(s.edits, handle);
    CallsMore(w, t.log, OpenEdit(handle));
    if FindEdit(s.edits, handle).Some? { CallsMore(w, t.log, Committed(s.edits[FindEdit(s.edits, handle).value])); }
  }

  lemma {:induction false} OtherTold(w: Topic, rs: seq<Request>, s: Server, t: Server, r: Request)
    requires Tells(rs, s) && s.format != ASSOCIATION && r.command && t == GiveUp(s, r.op)
    requires r.op.Other?
    requires Calls(w, t.log) == Calls(w, s.log) + GivenUp(w, rs, r)
    ensures Calls(w, Perform(t, r.op).server.log) == Calls(w, s.log) + ToldBy(w, rs, r)
  {
    hide Calls, SessionAfter, EditAfter, FormatAfter, Waiting, EditTells;
  }

  lemma {:induction false} ServeTold(w: Topic, rs: seq<Request>)
    ensures Calls(w, Serve(Created, rs).log) == Told(w, rs)
  {
    hide Inv, Handle, ToldBy, Tells;
    if rs != [] {
      var before := rs[..|rs| - 1];
      ServeTold(w, before);
      ServeKeeps(before);
      HistoryTells(before);
      FormatKept(Serve(Created, before));
      EditsDistinct(Serve(Created, before));
      HandleTold(w, before, Serve(Created, before), rs[|rs| - 1]);
    }
  }

  /** What the exit tells: open edits are committed, an open session is ended. */
  function ToldAtExit(w: Topic, rs: seq<Request>): seq<Call> {
    match w
    case OfSessions => if SessionAfter(rs).Some? then [SessionEnded] else []
    case OfEdits(h) => if EditAfter(rs, h).Some? then [CommitEdit(h, EditAfter(rs, h).value)] else []
    case OfObjects => []
  }

  lemma {:induction false} CommitCalls(w: Topic, edits: seq<Edit>)
    requires Distinct(edits)
    ensures Calls(w, Commits(edits))
      == if w.OfEdits? && FindEdit(edits, w.handle).Some? then
           FindEditFinds(edits, w.handle); [Committed(edits[FindEdit(edits, w.handle).value])]
         else []
  {
    hide Calls, FindEdit;
    if edits == [] {
      NoCalls(w);
      if w.OfEdits? { FindEditFinds([], w.handle); }
    } else {
      var n := |edits| - 1;
      var front, e := edits[..n], edits[n];
      assert edits == front + [e];
      CommitCalls(w, front);
      CallsMore(w, Commits(front), Committed(e));
      if w.OfEdits? {
        FindEditFinds(front, w.handle);
        FindEditFinds(edits, w.handle);
        FindAppend(front, e, w.handle);
      }
    }
  }

  lemma {:induction false} NoCalls(w: Topic)
    ensures Calls(w, []) == []
  {
  }

  /** Over any run that ends in exit the database is told of the session, of the edits of
      each object, and of the objects sent, exactly what the requests say: an object is
      ended as received only if it was announced last and its transfer ended with Ok. */
  lemma {:induction false} ToldExactly(w: Topic, rs: seq<Request>)
    ensures Calls(w, Exit(Serve(Created, rs)).log) == Told(w, rs) + ToldAtExit(w, rs)
  {
    hide Calls, Serve, Told, SessionAfter, EditAfter, FormatAfter, Waiting, FindEdit, Commits, Inv;
    var s := Serve(Created, rs);
    ServeTold(w, rs);
    ServeKeeps(rs);
    HistoryTells(rs);
    EditsDistinct(s);
    CommitCalls(w, s.edits);
    if w.OfEdits? {
      assert EditTells(rs, s.edits, w.handle);
      FindEditFinds(s.edits, w.handle);
    }
    CallsAppend(w, s.log, Commits(s.edits));
    NoCalls(w);
    if s.open {
      CallsMore(w, s.log + Commits(s.edits), SessionEnded);
    } else {
      assert s.log + Commits(s.edits) + [] == s.log + Commits(s.edits);
    }
  }
}
