/**
  The firmware-update session: one component, driven by requests from clients,
  writing through a storage backend.  The log records what the backend was asked to
  do, so that safety can be stated about whole histories.
  */
module Fwu {
  import opened Handles

  type Byte = b: int | 0 <= b < 256

  const WORD: nat := 0x1_0000_0000
  const UNDECLARED: nat := 0xFFFF_FFFF
  const PRIMARY: nat := 0
  const BLOCK_MAX: nat := 1024
  const HEADER: nat := 16
  const IDLE_TIMEOUT: nat := 30000

  const SUCCESS: int := 0
  const SUCCESS_REBOOT: int := 1
  const GENERIC_ERROR: int := -132
  const NOT_PERMITTED: int := -133
  const NOT_SUPPORTED: int := -134
  const INVALID_ARGUMENT: int := -135
  const BAD_STATE: int := -137
  const STORAGE_FAILURE: int := -146

  const QUERY: int := 1
  const START: int := 2
  const WRITE: int := 3
  const FINISH: int := 4
  const INSTALL: int := 5
  const CANCEL: int := 6
  const CLEAN: int := 7
  const REJECT: int := 8
  const REBOOT: int := 9

  datatype State = Ready | Writing | Candidate | Staged | Failed | Updated

  datatype Event =
    | Began(ok: bool)
    | Wrote(offset: nat, data: seq<Byte>, ok: bool)
    | Verified(size: nat, version: nat, ok: bool)
    | Armed(size: nat, version: nat, ok: bool)
    | Disarmed(ok: bool)

  /**
    Which operations the backend provides, its size and its write granularity; versions below floor are refused, and
    active is the version that runs now.
    */
  datatype Backend = Backend(begin: bool, write: bool, arm: bool, disarm: bool, verify: bool,
                             capacity: nat, align: nat, floor: nat, active: nat)

  datatype Session = Session(state: State, high: nat, candidate: nat, armed: bool, error: int, owner: int, tick: nat,
                             log: seq<Event>)

  /** What the outside answers during one request: each operation's success and the header version. */
  datatype Answers = Answers(read: bool, begin: bool, write: bool, tail: bool, verify: bool, header: nat, arm: bool,
                             disarm: bool, reboot: bool, reply: bool)

  datatype Request = Request(op: int, client: int, inSize: nat, component: nat, offset: nat, size: nat, version: nat,
                             block: seq<Byte>, outRoom: bool)

  datatype Result = Result(s: Session, status: int)

  // ---------------------------------------------------------------- transitions

  function Logged(s: Session, e: Event): Session {
    s.(log := s.log + [e])
  }

  function Fail(s: Session, error: int): Session {
    s.(state := Failed, error := error)
  }

  function Cleared(s: Session): Session {
    s.(state := Ready, high := 0, candidate := 0, armed := false, error := SUCCESS)
  }

  function Start(b: Backend, s: Session, a: Answers, component: nat, version: nat): Result {
    if component != PRIMARY then Result(s, INVALID_ARGUMENT)
    else if s.state != Ready then Result(s, BAD_STATE)
    else if version != UNDECLARED && version < b.floor then Result(s, NOT_PERMITTED)
    else
      var s1 := if b.begin then Logged(s, Began(a.begin)) else s;
      if b.begin && !a.begin then Result(s1, STORAGE_FAILURE)
      else Result(s1.(state := Writing, high := 0, candidate := version, armed := false), SUCCESS)
  }

  function Granule(b: Backend): nat {
    if b.align == 0 then 1 else b.align
  }

  function Padding(n: nat): (r: seq<Byte>)
    ensures |r| == n && forall i :: 0 <= i < n ==> r[i] == 0xFF
  {
    seq(n, _ => 0xFF)
  }

  /** Why a write of size bytes at offset is refused, or SUCCESS. */
  function WriteError(b: Backend, s: Session, component: nat, offset: nat, size: nat): int {
    var end := (offset + size) % WORD;
    if component != PRIMARY || size == 0 then INVALID_ARGUMENT
    else if s.state != Writing then BAD_STATE
    else if end < offset || end > b.capacity || offset % Granule(b) != 0 then INVALID_ARGUMENT
    else
      var remainder := size % Granule(b);
      var padding := Granule(b) - remainder;
      if remainder != 0 && (Granule(b) > BLOCK_MAX || end > WORD - 1 - padding || end + padding > b.capacity)
      then INVALID_ARGUMENT
      else SUCCESS
  }

  /** The backend writes of one block: whole granules, then a tail filled up with 0xFF. */
  function WriteEvents(b: Backend, a: Answers, offset: nat, data: seq<Byte>): seq<Event> {
    var remainder := |data| % Granule(b);
    var prefix := |data| - remainder;
    if !b.write then []
    else if remainder == 0 then [Wrote(offset, data, a.write)]
    else if prefix != 0 && !a.write then [Wrote(offset, data[..prefix], false)]
    else (if prefix != 0 then [Wrote(offset, data[..prefix], true)] else [])
         + [Wrote(offset + prefix, data[prefix..] + Padding(Granule(b) - remainder), a.tail)]
  }

  predicate AllOk(es: seq<Event>) {
    forall i :: 0 <= i < |es| ==> es[i].ok
  }

  function Write(b: Backend, s: Session, a: Answers, component: nat, offset: nat, data: seq<Byte>): Result {
    var error := WriteError(b, s, component, offset, |data|);
    if error != SUCCESS then Result(s, error)
    else
      var events := WriteEvents(b, a, offset, data);
      var s1 := s.(log := s.log + events);
      if !AllOk(events) then Result(Fail(s1, STORAGE_FAILURE), STORAGE_FAILURE)
      else
        var end := (offset + |data|) % WORD;
        Result(s1.(high := if end > s.high then end else s.high), SUCCESS)
  }

  function Finish(b: Backend, s: Session, a: Answers, component: nat): Result {
    if component != PRIMARY then Result(s, INVALID_ARGUMENT)
    else if s.state != Writing then Result(s, BAD_STATE)
    else if s.high == 0 then Result(s, INVALID_ARGUMENT)
    else
      var s1 := if b.verify then Logged(s, Verified(s.high, a.header, a.verify)) else s;
      if b.verify && !a.verify then Result(Fail(s1, INVALID_ARGUMENT), INVALID_ARGUMENT)
      else if b.verify && s.candidate != UNDECLARED && a.header != s.candidate then
        Result(Fail(s1, NOT_PERMITTED), NOT_PERMITTED)
      else
        var version := if b.verify then a.header else s.candidate;
        var s2 := s1.(candidate := version);
        if version == UNDECLARED || version < b.floor then Result(Fail(s2, NOT_PERMITTED), NOT_PERMITTED)
        else Result(s2.(state := Candidate), SUCCESS)
  }

  function Install(b: Backend, s: Session, a: Answers): Result {
    if s.state != Candidate then Result(s, BAD_STATE)
    else if !b.arm || !b.disarm then Result(s, BAD_STATE)
    else if s.candidate < b.floor then Result(Fail(s, NOT_PERMITTED), NOT_PERMITTED)
    else
      var s1 := Logged(s, Armed(s.high, s.candidate, a.arm));
      if !a.arm then Result(s1, STORAGE_FAILURE) else Result(s1.(state := Staged, armed := true), SUCCESS_REBOOT)
  }

  function Cancel(s: Session, component: nat): Result {
    if component != PRIMARY then Result(s, INVALID_ARGUMENT)
    else if s.state != Writing && s.state != Candidate then Result(s, BAD_STATE)
    else Result(Fail(s, SUCCESS), SUCCESS)
  }

  function Clean(b: Backend, s: Session, a: Answers, component: nat): Result {
    if component != PRIMARY then Result(s, INVALID_ARGUMENT)
    else if s.state != Failed && s.state != Updated then Result(s, BAD_STATE)
    else
      var s1 := if s.armed && b.disarm then Logged(s, Disarmed(a.disarm)) else s;
      if s.armed && b.disarm && !a.disarm then Result(s1, STORAGE_FAILURE) else Result(Cleared(s1), SUCCESS)
  }

  function Reject(b: Backend, s: Session, a: Answers, error: int): Result {
    if s.state != Staged then Result(s, BAD_STATE)
    else
      var s1 := if s.armed && b.disarm then Logged(s, Disarmed(a.disarm)) else s;
      if s.armed && b.disarm && !a.disarm then Result(s1, STORAGE_FAILURE)
      else Result(Fail(s1, error).(armed := false), SUCCESS)
  }

  function Reboot(s: Session, a: Answers): Result {
    if s.state != Staged || !s.armed then Result(s, BAD_STATE)
    else Result(s, if a.reboot then SUCCESS_REBOOT else NOT_SUPPORTED)
  }

  // ---------------------------------------------------------------- one request

  predicate Expired(s: Session, now: nat, client: int) {
    s.owner != 0 && client != s.owner && (now - s.tick) % WORD >= IDLE_TIMEOUT
  }

  function ForceReset(b: Backend, s: Session, a: Answers): Result {
    if !s.armed then Result(Cleared(s).(owner := 0), SUCCESS)
    else if !b.disarm then Result(s, STORAGE_FAILURE)
    else
      var s1 := Logged(s, Disarmed(a.disarm));
      if !a.disarm then Result(s1, STORAGE_FAILURE) else Result(Cleared(s1).(owner := 0), SUCCESS)
  }

  /** What a query tells its caller; the declared candidate stays private. */
  datatype Info = Info(state: State, error: int, version: nat, maxSize: nat, staged: nat)

  function Report(b: Backend, s: Session): Info {
    Info(s.state, if s.state == Failed then s.error else SUCCESS, b.active, b.capacity, s.high)
  }

  function Signed(word: nat): int {
    if word < 0x8000_0000 then word else word - WORD
  }

  /** The request's own operation, once the caller is admitted. */
  function Operate(b: Backend, s: Session, a: Answers, r: Request, now: nat): Result {
    if r.op == QUERY then
      Result(s, if !r.outRoom || r.component != PRIMARY then INVALID_ARGUMENT
                else if a.reply then SUCCESS else GENERIC_ERROR)
    else if r.op == START then
      var q := Start(b, s, a, r.component, r.version);
      if q.status == SUCCESS then q.(s := q.s.(owner := r.client, tick := now)) else q
    else if r.op == WRITE then
      if r.size != |r.block| then Result(s, INVALID_ARGUMENT) else Write(b, s, a, r.component, r.offset, r.block)
    else if r.op == FINISH then Finish(b, s, a, r.component)
    else if r.op == INSTALL then Install(b, s, a)
    else if r.op == CANCEL then Cancel(s, r.component)
    else if r.op == CLEAN then Clean(b, s, a, r.component)
    else if r.op == REJECT then Reject(b, s, a, Signed(r.version))
    else if r.op == REBOOT then Reboot(s, a)
    else Result(s, NOT_SUPPORTED)
  }

  /** Ownership after the operation: released when idle, its clock refreshed by the owner's progress. */
  function Settle(s: Session, r: Request, now: nat): Session {
    if s.state == Ready then s.(owner := 0)
    else if s.owner != 0 && r.client == s.owner && r.op != QUERY && r.op != START then s.(tick := now)
    else s
  }

  function Admitted(b: Backend, s: Session, a: Answers, r: Request, now: nat): Result {
    if r.op != QUERY && r.op != START && s.owner != 0 && r.client != s.owner then Result(s, NOT_PERMITTED)
    else
      var q := Operate(b, s, a, r, now);
      if r.op == QUERY && !r.outRoom then q else q.(s := Settle(q.s, r, now))
  }

  function Serve(b: Backend, s: Session, a: Answers, r: Request, now: nat): Result {
    if r.inSize < HEADER || r.inSize > HEADER + BLOCK_MAX || !a.read then Result(s, INVALID_ARGUMENT)
    else if Expired(s, now, r.client) then
      var q := ForceReset(b, s, a);
      if q.status != SUCCESS then q else Admitted(b, q.s, a, r, now)
    else Admitted(b, s, a, r, now)
  }

  // ---------------------------------------------------------------- histories

  predicate Touches(e: Event) {
    e.Began? || e.Wrote?
  }

  /** Entry n verified an image of this size and version, and nothing touched the staged bytes before entry m. */
  predicate VerifiedAt(log: seq<Event>, n: nat, m: nat, size: nat, version: nat)
    requires m <= |log|
  {
    n < m && log[n] == Verified(size, version, true) && forall k :: n < k < m ==> !Touches(log[k])
  }

  predicate VerifiedBy(log: seq<Event>, m: nat, size: nat, version: nat)
    requires m <= |log|
  {
    exists n :: 0 <= n < m && VerifiedAt(log, n, m, size, version)
  }

  predicate Admissible(b: Backend, log: seq<Event>, m: nat, size: nat, version: nat)
    requires m <= |log|
  {
    b.floor <= version && version != UNDECLARED && (b.verify ==> VerifiedBy(log, m, size, version))
  }

  /** Every arming in the history, successful or not, was of an image verified as it stood. */
  ghost predicate HistorySafe(b: Backend, log: seq<Event>) {
    forall m :: 0 <= m < |log| && log[m].Armed? ==> Admissible(b, log, m, log[m].size, log[m].version)
  }

  /** The swap trigger as the backend's answers leave it. */
  function Triggered(log: seq<Event>): bool {
    if log == [] then false
    else
      var e := log[|log| - 1];
      if e.Armed? && e.ok then true
      else if e.Disarmed? && e.ok then false
      else Triggered(log[..|log| - 1])
  }

  ghost predicate CoreOk(b: Backend, s: Session) {
    && (s.armed <==> s.state == Staged)
    && (s.armed <==> Triggered(s.log))
    && (s.state == Staged ==> b.disarm)
    && (s.state in {Candidate, Staged} ==> Admissible(b, s.log, |s.log|, s.high, s.candidate))
    && HistorySafe(b, s.log)
  }

  /** What holds between requests. */
  ghost predicate SessionOk(b: Backend, s: Session) {
    CoreOk(b, s) && (s.owner == 0 <==> s.state == Ready)
  }

  const IDLE: Session := Session(Ready, 0, 0, false, SUCCESS, 0, 0, [])

  /** Admissibility survives a longer log as long as nothing touches the staged bytes. */
  lemma AdmissibleGrows(b: Backend, log: seq<Event>, more: seq<Event>, m: nat, size: nat, version: nat)
    requires m <= |log| && Admissible(b, log, m, size, version)
    ensures Admissible(b, log + more, m, size, version)
    ensures m == |log| && (forall i :: 0 <= i < |more| ==> !Touches(more[i])) ==>
              Admissible(b, log + more, |log + more|, size, version)
  {
    if b.verify {
      var n :| 0 <= n < m && VerifiedAt(log, n, m, size, version);
      assert VerifiedAt(log + more, n, m, size, version);
      if m == |log| && forall i :: 0 <= i < |more| ==> !Touches(more[i]) {
        assert VerifiedAt(log + more, n, |log + more|, size, version);
      }
    }
  }

  lemma HistoryGrows(b: Backend, log: seq<Event>, more: seq<Event>)
    requires HistorySafe(b, log) && forall i :: 0 <= i < |more| ==> !more[i].Armed?
    ensures HistorySafe(b, log + more)
  {
    forall m | 0 <= m < |log + more| && (log + more)[m].Armed?
      ensures Admissible(b, log + more, m, (log + more)[m].size, (log + more)[m].version)
    {
      AdmissibleGrows(b, log, more, m, log[m].size, log[m].version);
    }
  }

  lemma HistoryArms(b: Backend, log: seq<Event>, size: nat, version: nat, ok: bool)
    requires HistorySafe(b, log) && Admissible(b, log, |log|, size, version)
    ensures HistorySafe(b, log + [Armed(size, version, ok)])
    ensures Admissible(b, log + [Armed(size, version, ok)], |log| + 1, size, version)
  {
    var log' := log + [Armed(size, version, ok)];
    AdmissibleGrows(b, log, [Armed(size, version, ok)], |log|, size, version);
    forall m | 0 <= m < |log'| && log'[m].Armed? ensures Admissible(b, log', m, log'[m].size, log'[m].version) {
      if m < |log| {
        AdmissibleGrows(b, log, [Armed(size, version, ok)], m, log[m].size, log[m].version);
      }
    }
  }

  lemma TriggeredAppend(log: seq<Event>, e: Event)
    ensures Triggered(log + [e]) == if e.Armed? && e.ok then true else if e.Disarmed? && e.ok then false else Triggered(log)
  {
    assert (log + [e])[..|log|] == log;
  }

  lemma {:induction false} TriggeredWrites(log: seq<Event>, more: seq<Event>)
    requires forall i :: 0 <= i < |more| ==> more[i].Wrote?
    ensures Triggered(log + more) == Triggered(log)
  {
    if more == [] {
      assert log + more == log;
    } else {
      var n := |more| - 1;
      TriggeredWrites(log, more[..n]);
      TriggeredAppend(log + more[..n], more[n]);
      assert (log + more[..n]) + [more[n]] == log + more;
    }
  }

  // ---------------------------------------------------------------- every operation keeps the core invariant

  lemma StartCore(b: Backend, s: Session, a: Answers, component: nat, version: nat)
    requires CoreOk(b, s)
    ensures CoreOk(b, Start(b, s, a, component, version).s)
  {
    HistoryGrows(b, s.log, [Began(a.begin)]);
    TriggeredAppend(s.log, Began(a.begin));
  }

  lemma WriteCore(b: Backend, s: Session, a: Answers, component: nat, offset: nat, data: seq<Byte>)
    requires CoreOk(b, s)
    ensures CoreOk(b, Write(b, s, a, component, offset, data).s)
  {
    var events := WriteEvents(b, a, offset, data);
    HistoryGrows(b, s.log, events);
    TriggeredWrites(s.log, events);
  }

  lemma FinishCore(b: Backend, s: Session, a: Answers, component: nat)
    requires CoreOk(b, s)
    ensures CoreOk(b, Finish(b, s, a, component).s)
  {
    var e := Verified(s.high, a.header, a.verify);
    HistoryGrows(b, s.log, [e]);
    TriggeredAppend(s.log, e);
    if Finish(b, s, a, component).status == SUCCESS && b.verify {
      assert VerifiedAt(s.log + [e], |s.log|, |s.log| + 1, s.high, a.header);
    }
  }

  lemma InstallCore(b: Backend, s: Session, a: Answers)
    requires CoreOk(b, s)
    ensures CoreOk(b, Install(b, s, a).s)
  {
    if s.state == Candidate {
      HistoryArms(b, s.log, s.high, s.candidate, a.arm);
      TriggeredAppend(s.log, Armed(s.high, s.candidate, a.arm));
    }
  }

  lemma DisarmCore(b: Backend, s: Session, a: Answers)
    requires CoreOk(b, s)
    ensures CoreOk(b, Logged(s, Disarmed(false)))
    ensures HistorySafe(b, s.log + [Disarmed(a.disarm)])
    ensures Triggered(s.log + [Disarmed(a.disarm)]) == (!a.disarm && s.armed)
  {
    HistoryGrows(b, s.log, [Disarmed(a.disarm)]);
    HistoryGrows(b, s.log, [Disarmed(false)]);
    TriggeredAppend(s.log, Disarmed(a.disarm));
    TriggeredAppend(s.log, Disarmed(false));
    if s.state in {Candidate, Staged} {
      AdmissibleGrows(b, s.log, [Disarmed(false)], |s.log|, s.high, s.candidate);
    }
  }

  lemma ReleaseCore(b: Backend, s: Session, a: Answers, component: nat, error: int)
    requires CoreOk(b, s)
    ensures CoreOk(b, Clean(b, s, a, component).s)
    ensures CoreOk(b, Reject(b, s, a, error).s)
    ensures CoreOk(b, ForceReset(b, s, a).s)
    ensures CoreOk(b, Cancel(s, component).s)
  {
    DisarmCore(b, s, a);
  }

  /** Ownership is not part of the core invariant. */
  lemma OwnerChange(b: Backend, s: Session, owner: int, tick: nat)
    requires CoreOk(b, s)
    ensures CoreOk(b, s.(owner := owner, tick := tick))
  {
  }

  lemma OperateCore(b: Backend, s: Session, a: Answers, r: Request, now: nat)
    requires CoreOk(b, s)
    ensures CoreOk(b, Operate(b, s, a, r, now).s)
  {
    hide CoreOk;
    hide Start;
    hide Write;
    hide Finish;
    hide Install;
    hide Clean;
    hide Reject;
    hide Cancel;
    if r.op == START {
      StartCore(b, s, a, r.component, r.version);
      OwnerChange(b, Start(b, s, a, r.component, r.version).s, r.client, now);
    } else if r.op == WRITE {
      WriteCore(b, s, a, r.component, r.offset, r.block);
    } else if r.op == FINISH {
      FinishCore(b, s, a, r.component);
    } else if r.op == INSTALL {
      InstallCore(b, s, a);
    } else {
      ReleaseCore(b, s, a, r.component, Signed(r.version));
    }
  }

  /** Only a start opens a session, and only a start changes who owns it. */
  lemma OperateOwner(b: Backend, s: Session, a: Answers, r: Request, now: nat)
    ensures var q := Operate(b, s, a, r, now);
            && (s.state == Ready && q.s.state != Ready ==> q.s.owner == r.client && r.op == START)
            && (s.state != Ready || q.s.state == Ready ==> q.s.owner == s.owner && q.s.tick == s.tick)
  {
    WriteOwner(b, s, a, r.component, r.offset, r.block);
    FinishOwner(b, s, a, r.component);
    ResetOwner(b, s, a, r.component, Signed(r.version));
    hide Write;
    hide Finish;
    hide Install;
    hide Cancel;
    hide Clean;
    hide Reject;
    hide Reboot;
  }

  /** The operation neither opens a session nor hands it to somebody else. */
  predicate SameOwner(s: Session, q: Session) {
    (s.state == Ready ==> q.state == Ready) && q.owner == s.owner && q.tick == s.tick
  }

  lemma WriteOwner(b: Backend, s: Session, a: Answers, component: nat, offset: nat, block: seq<Byte>)
    ensures SameOwner(s, Write(b, s, a, component, offset, block).s)
  {
  }

  lemma FinishOwner(b: Backend, s: Session, a: Answers, component: nat)
    ensures SameOwner(s, Finish(b, s, a, component).s) && SameOwner(s, Install(b, s, a).s)
  {
  }

  lemma ResetOwner(b: Backend, s: Session, a: Answers, component: nat, error: int)
    ensures SameOwner(s, Cancel(s, component).s) && SameOwner(s, Clean(b, s, a, component).s)
    ensures SameOwner(s, Reject(b, s, a, error).s) && SameOwner(s, Reboot(s, a).s)
  {
  }

  lemma AdmittedOk(b: Backend, s: Session, a: Answers, r: Request, now: nat)
    requires SessionOk(b, s) && r.client != 0
    ensures SessionOk(b, Admitted(b, s, a, r, now).s)
  {
    OperateCore(b, s, a, r, now);
    OperateOwner(b, s, a, r, now);
    hide Operate;
    hide HistorySafe;
    hide Admissible;
    if r.op == QUERY && !r.outRoom {
      QueryStays(b, s, a, r, now);
    }
  }

  lemma QueryNeedsRoom(b: Backend, a: Answers, r: Request, now: nat)
    requires r.op == QUERY && !r.outRoom
    ensures forall s :: Operate(b, s, a, r, now).status != SUCCESS
  {
  }

  lemma QueryStays(b: Backend, s: Session, a: Answers, r: Request, now: nat)
    requires r.op == QUERY
    ensures Operate(b, s, a, r, now).s == s
  {
  }

  lemma ServeOk(b: Backend, s: Session, a: Answers, r: Request, now: nat)
    requires SessionOk(b, s) && r.client != 0
    ensures SessionOk(b, Serve(b, s, a, r, now).s)
  {
    ReleaseCore(b, s, a, 0, 0);
    AdmittedOk(b, s, a, r, now);
    if ForceReset(b, s, a).status == SUCCESS {
      AdmittedOk(b, ForceReset(b, s, a).s, a, r, now);
    }
    hide Admitted;
    hide HistorySafe;
    hide Admissible;
  }

  // ---------------------------------------------------------------- every run of requests

  datatype Input = Input(answers: Answers, request: Request, now: nat)

  /** The session after a run of requests, from whatever state. */
  function Run(b: Backend, s: Session, run: seq<Input>): Session
    decreases |run|
  {
    if run == [] then s
    else Run(b, Serve(b, s, run[0].answers, run[0].request, run[0].now).s, run[1..])
  }

  /** In every run: armed exactly when staged and triggered, and every arming was of a verified, admissible image. */
  lemma {:induction false} RunOk(b: Backend, s: Session, run: seq<Input>)
    requires SessionOk(b, s) && forall i :: 0 <= i < |run| ==> run[i].request.client != 0
    ensures SessionOk(b, Run(b, s, run))
    decreases |run|
  {
    if run != [] {
      ServeOk(b, s, run[0].answers, run[0].request, run[0].now);
      RunOk(b, Serve(b, s, run[0].answers, run[0].request, run[0].now).s, run[1..]);
    }
  }

  lemma FreshSessionSafe(b: Backend, run: seq<Input>)
    requires forall i :: 0 <= i < |run| ==> run[i].request.client != 0
    ensures var s := Run(b, IDLE, run);
            && (s.armed <==> s.state == Staged) && (s.armed <==> Triggered(s.log))
            && (s.armed ==> Admissible(b, s.log, |s.log|, s.high, s.candidate))
            && (forall m :: 0 <= m < |s.log| && s.log[m].Armed? ==>
                  Admissible(b, s.log, m, s.log[m].size, s.log[m].version))
  {
    RunOk(b, IDLE, run);
  }

  // ---------------------------------------------------------------- ownership

  /** A stranger's request changes nothing in an open session whose owner is not idle past the timeout. */
  lemma OnlyOwner(b: Backend, s: Session, a: Answers, r: Request, now: nat)
    requires SessionOk(b, s) && s.state != Ready && r.client != s.owner && !Expired(s, now, r.client)
    ensures Serve(b, s, a, r, now).s == s
  {
  }

  /** The same over runs: while only strangers ask in time, the session stands still. */
  lemma {:induction false} StrangersWait(b: Backend, s: Session, run: seq<Input>)
    requires SessionOk(b, s) && s.state != Ready
    requires forall i :: 0 <= i < |run| ==> run[i].request.client != s.owner && !Expired(s, run[i].now, run[i].request.client)
    ensures Run(b, s, run) == s
    decreases |run|
  {
    if run != [] {
      OnlyOwner(b, s, run[0].answers, run[0].request, run[0].now);
      StrangersWait(b, s, run[1..]);
    }
  }

  /** An expired session is reset before anything else, or kept when its trigger cannot be cleared. */
  lemma ReclaimResets(b: Backend, s: Session, a: Answers, r: Request, now: nat)
    requires SessionOk(b, s) && Expired(s, now, r.client) && a.read && HEADER <= r.inSize <= HEADER + BLOCK_MAX
    ensures var q := Serve(b, s, a, r, now);
            if s.armed && !a.disarm then q.status == STORAGE_FAILURE && q.s == s.(log := s.log + [Disarmed(false)])
            else
              var idle := IDLE.(tick := s.tick, log := s.log + (if s.armed then [Disarmed(true)] else []));
              q == Admitted(b, idle, a, r, now)
  {
    assert s.log + [] == s.log;
  }

  // ---------------------------------------------------------------- storage

  function Joined(es: seq<Event>): seq<Byte>
    requires forall i :: 0 <= i < |es| ==> es[i].Wrote?
  {
    if es == [] then [] else Joined(es[..|es| - 1]) + es[|es| - 1].data
  }

  lemma MulMono(p: nat, q: nat, g: nat)
    requires p <= q
    ensures p * g <= q * g
  {
  }

  /** Quotient and remainder are unique. */
  lemma DivModIs(x: nat, k: nat, r: nat, g: nat)
    requires r < g && x == k * g + r
    ensures x % g == r && x / g == k
  {
    var q := x / g;
    assert x == q * g + x % g;
    if q < k {
      MulMono(q + 1, k, g);
    } else if q > k {
      MulMono(k + 1, q, g);
    }
  }

  lemma WholeGranules(n: nat, g: nat)
    requires g > 0
    ensures n % g <= n && (n - n % g) % g == 0
  {
    var q := n / g;
    assert n == q * g + n % g;
    MulMono(0, q, g);
    DivModIs(n - n % g, q, 0, g);
  }

  lemma AddMultiple(x: nat, y: nat, g: nat)
    requires g > 0 && x % g == 0 && y % g == 0
    ensures (x + y) % g == 0
  {
    var p, q := x / g, y / g;
    assert x == p * g && y == q * g;
    assert x + y == (p + q) * g;
    DivModIs(x + y, p + q, 0, g);
  }

  /** An accepted range is aligned, does not wrap, and fits even when filled up to a whole granule. */
  lemma AcceptedRange(b: Backend, s: Session, component: nat, offset: nat, size: nat)
    requires WriteError(b, s, component, offset, size) == SUCCESS && offset < WORD && size <= BLOCK_MAX
    ensures offset % Granule(b) == 0 && (offset + size) % WORD == offset + size <= b.capacity
    ensures size % Granule(b) != 0 ==> offset + size + (Granule(b) - size % Granule(b)) <= b.capacity
  {
  }

  predicate LandsInside(b: Backend, e: Event, offset: nat) {
    && e.Wrote? && e.offset % Granule(b) == 0 && |e.data| % Granule(b) == 0
    && offset <= e.offset && e.offset + |e.data| <= b.capacity
  }

  /** Every backend write of an accepted block is aligned, in whole granules and inside the partition. */
  lemma WritesLandInside(b: Backend, s: Session, a: Answers, component: nat, offset: nat, data: seq<Byte>)
    requires WriteError(b, s, component, offset, |data|) == SUCCESS && offset < WORD && |data| <= BLOCK_MAX
    ensures forall i :: 0 <= i < |WriteEvents(b, a, offset, data)| ==> LandsInside(b, WriteEvents(b, a, offset, data)[i], offset)
  {
    AcceptedRange(b, s, component, offset, |data|);
    hide WriteError;
    var g := Granule(b);
    hide Granule;
    var remainder := |data| % g;
    WholeGranules(|data|, g);
    var prefix := |data| - remainder;
    AddMultiple(offset, prefix, g);
    DivModIs(g, 1, 0, g);
  }

  /** When the backend accepts every write, the partition receives the block and 0xFF up to the next granule. */
  lemma WritesSpellBlock(b: Backend, a: Answers, offset: nat, data: seq<Byte>)
    requires b.write && AllOk(WriteEvents(b, a, offset, data))
    ensures var es := WriteEvents(b, a, offset, data);
            var g := Granule(b);
            && (forall i :: 0 <= i < |es| ==> es[i].Wrote?)
            && (es == [] || es[0].offset == offset)
            && (forall i :: 0 < i < |es| ==> es[i].offset == es[i - 1].offset + |es[i - 1].data|)
            && Joined(es) == data + Padding(if |data| % g == 0 then 0 else g - |data| % g)
  {
    var es := WriteEvents(b, a, offset, data);
    var g := Granule(b);
    WholeGranules(|data|, g);
    hide Granule;
    hide Joined;
    var remainder := |data| % g;
    var prefix := |data| - remainder;
    if remainder == 0 {
      JoinedOne(es[0]);
      assert es == [es[0]] && data + Padding(0) == data;
    } else {
      var tail := data[prefix..] + Padding(g - remainder);
      assert data[..prefix] + tail == data + Padding(g - remainder);
      if prefix != 0 {
        JoinedTwo(es[0], es[1]);
        assert es == [es[0], es[1]];
      } else {
        JoinedOne(es[0]);
        assert es == [es[0]];
      }
    }
  }

  lemma JoinedOne(e: Event)
    requires e.Wrote?
    ensures Joined([e]) == e.data
  {
    assert [e][..0] == [];
  }

  lemma JoinedTwo(e: Event, f: Event)
    requires e.Wrote? && f.Wrote?
    ensures Joined([e, f]) == e.data + f.data
  {
    assert [e, f][..1] == [e];
    JoinedOne(e);
  }

  // ---------------------------------------------------------------- the service as stored

  /** The service context: fields updated in place by each operation. */
  class UpdateService {
    const backend: Backend
    var state: State
    var high: nat
    var candidate: nat
    var armed: bool
    var error: int
    var owner: int
    var tick: nat
    ghost var log: seq<Event>

    ghost function Now(): Session
      reads this
    {
      Session(state, high, candidate, armed, error, owner, tick, log)
    }

    constructor (b: Backend)
      ensures backend == b && Now() == IDLE && SessionOk(b, Now())
    {
      backend := b;
      state, high, candidate, armed, error, owner, tick := Ready, 0, 0, false, SUCCESS, 0, 0;
      log := [];
    }

    method DoStart(a: Answers, component: nat, version: nat) returns (status: int)
      modifies this
      ensures Result(Now(), status) == Start(backend, old(Now()), a, component, version)
    {
      if component != PRIMARY {
        return INVALID_ARGUMENT;
      }
      if state != Ready {
        return BAD_STATE;
      }
      if version != UNDECLARED && version < backend.floor {
        return NOT_PERMITTED;
      }
      if backend.begin {
        log := log + [Began(a.begin)];
        if !a.begin {
          return STORAGE_FAILURE;
        }
      }
      state := Writing;
      high := 0;
      candidate := version;
      armed := false;
      status := SUCCESS;
    }

    /** One backend write, if the backend has the operation. */
    method Program(offset: nat, data: seq<Byte>, ok: bool) returns (done: bool)
      modifies this`log
      ensures done == (!backend.write || ok)
      ensures log == old(log) + if backend.write then [Wrote(offset, data, ok)] else []
    {
      if backend.write {
        log := log + [Wrote(offset, data, ok)];
      }
      done := !backend.write || ok;
    }

    /** The aligned and the padded part of a write. */
    method ProgramBlock(a: Answers, offset: nat, data: seq<Byte>) returns (done: bool)
      modifies this`log
      ensures log == old(log) + WriteEvents(backend, a, offset, data)
      ensures done == AllOk(WriteEvents(backend, a, offset, data))
    {
      var align := Granule(backend);
      var remainder := |data| % align;
      ghost var events := WriteEvents(backend, a, offset, data);
      if remainder != 0 {
        var prefix := |data| - remainder;
        if prefix != 0 {
          done := Program(offset, data[..prefix], a.write);
          if !done {
            assert !events[0].ok;
            return;
          }
        }
        done := Program(offset + prefix, data[prefix..] + Padding(align - remainder), a.tail);
        assert events != [] ==> events[|events| - 1].ok == a.tail;
      } else {
        done := Program(offset, data, a.write);
        assert events != [] ==> events[0].ok == a.write;
      }
    }

    method DoWrite(a: Answers, component: nat, offset: nat, data: seq<Byte>) returns (status: int)
      modifies this
      ensures Result(Now(), status) == Write(backend, old(Now()), a, component, offset, data)
    {
      hide WriteEvents;
      status := WriteError(backend, Session(state, high, candidate, armed, error, owner, tick, []), component, offset, |data|);
      if status != SUCCESS {
        return;
      }
      var end := (offset + |data|) % WORD;
      var done := ProgramBlock(a, offset, data);
      if !done {
        state := Failed;
        error := STORAGE_FAILURE;
        return STORAGE_FAILURE;
      }
      if end > high {
        high := end;
      }
    }

    method DoFinish(a: Answers, component: nat) returns (status: int)
      modifies this
      ensures Result(Now(), status) == Finish(backend, old(Now()), a, component)
    {
      if component != PRIMARY {
        return INVALID_ARGUMENT;
      }
      if state != Writing {
        return BAD_STATE;
      }
      if high == 0 {
        return INVALID_ARGUMENT;
      }
      if backend.verify {
        log := log + [Verified(high, a.header, a.verify)];
        if !a.verify {
          state, error := Failed, INVALID_ARGUMENT;
          return INVALID_ARGUMENT;
        }
        if candidate == UNDECLARED {
          candidate := a.header;
        } else if a.header != candidate {
          state, error := Failed, NOT_PERMITTED;
          return NOT_PERMITTED;
        }
      }
      if candidate == UNDECLARED || candidate < backend.floor {
        state, error := Failed, NOT_PERMITTED;
        return NOT_PERMITTED;
      }
      state := Candidate;
      status := SUCCESS;
    }

    method DoInstall(a: Answers) returns (status: int)
      modifies this
      ensures Result(Now(), status) == Install(backend, old(Now()), a)
    {
      if state != Candidate || !backend.arm || !backend.disarm {
        return BAD_STATE;
      }
      if candidate < backend.floor {
        state, error := Failed, NOT_PERMITTED;
        return NOT_PERMITTED;
      }
      log := log + [Armed(high, candidate, a.arm)];
      if !a.arm {
        return STORAGE_FAILURE;
      }
      state := Staged;
      armed := true;
      status := SUCCESS_REBOOT;
    }

    method DoCancel(component: nat) returns (status: int)
      modifies this
      ensures Result(Now(), status) == Cancel(old(Now()), component)
    {
      if component != PRIMARY {
        return INVALID_ARGUMENT;
      }
      if state != Writing && state != Candidate {
        return BAD_STATE;
      }
      state, error := Failed, SUCCESS;
      status := SUCCESS;
    }

    method DoClean(a: Answers, component: nat) returns (status: int)
      modifies this
      ensures Result(Now(), status) == Clean(backend, old(Now()), a, component)
    {
      if component != PRIMARY {
        return INVALID_ARGUMENT;
      }
      if state != Failed && state != Updated {
        return BAD_STATE;
      }
      if armed && backend.disarm {
        log := log + [Disarmed(a.disarm)];
        if !a.disarm {
          return STORAGE_FAILURE;
        }
      }
      state, high, candidate, armed, error := Ready, 0, 0, false, SUCCESS;
      status := SUCCESS;
    }

    method DoReject(a: Answers, code: int) returns (status: int)
      modifies this
      ensures Result(Now(), status) == Reject(backend, old(Now()), a, code)
    {
      if state != Staged {
        return BAD_STATE;
      }
      if armed && backend.disarm {
        log := log + [Disarmed(a.disarm)];
        if !a.disarm {
          return STORAGE_FAILURE;
        }
      }
      armed := false;
      state, error := Failed, code;
      status := SUCCESS;
    }

    method Reclaim(a: Answers) returns (status: int)
      modifies this
      ensures Result(Now(), status) == ForceReset(backend, old(Now()), a)
    {
      if armed {
        if !backend.disarm {
          return STORAGE_FAILURE;
        }
        log := log + [Disarmed(a.disarm)];
        if !a.disarm {
          return STORAGE_FAILURE;
        }
      }
      state, high, candidate, armed, error, owner := Ready, 0, 0, false, SUCCESS, 0;
      status := SUCCESS;
    }

    method DoOperate(a: Answers, r: Request, now: nat) returns (status: int)
      modifies this
      ensures Result(Now(), status) == Operate(backend, old(Now()), a, r, now)
    {
      hide Write;
      hide Finish;
      hide Install;
      hide Clean;
      hide Reject;
      hide Cancel;
      hide Start;
      if r.op == QUERY {
        status := if !r.outRoom || r.component != PRIMARY then INVALID_ARGUMENT
                  else if a.reply then SUCCESS else GENERIC_ERROR;
      } else if r.op == START {
        status := DoStart(a, r.component, r.version);
        if status == SUCCESS {
          owner, tick := r.client, now;
        }
      } else if r.op == WRITE {
        if r.size != |r.block| {
          return INVALID_ARGUMENT;
        }
        status := DoWrite(a, r.component, r.offset, r.block);
      } else if r.op == FINISH {
        status := DoFinish(a, r.component);
      } else if r.op == INSTALL {
        status := DoInstall(a);
      } else if r.op == CANCEL {
        status := DoCancel(r.component);
      } else if r.op == CLEAN {
        status := DoClean(a, r.component);
      } else if r.op == REJECT {
        status := DoReject(a, Signed(r.version));
      } else if r.op == REBOOT {
        if state != Staged || !armed {
          return BAD_STATE;
        }
        status := if a.reboot then SUCCESS_REBOOT else NOT_SUPPORTED;
      } else {
        status := NOT_SUPPORTED;
      }
    }

    /** One request: reclaim an idle session, admit the caller, operate, settle ownership. */
    method Call(a: Answers, r: Request, now: nat) returns (status: int, info: Option<Info>)
      requires SessionOk(backend, Now()) && r.client != 0
      modifies this
      ensures SessionOk(backend, Now())
      ensures Result(Now(), status) == Serve(backend, old(Now()), a, r, now)
      ensures info == if r.op == QUERY && status == SUCCESS then Some(Report(backend, Now())) else None
    {
      hide SessionOk;
      hide Operate;
      ServeOk(backend, Now(), a, r, now);
      info := None;
      if r.inSize < HEADER || r.inSize > HEADER + BLOCK_MAX || !a.read {
        return INVALID_ARGUMENT, info;
      }
      if owner != 0 && r.client != owner && (now - tick) % WORD >= IDLE_TIMEOUT {
        status := Reclaim(a);
        if status != SUCCESS {
          return;
        }
      }
      if r.op != QUERY && r.op != START && owner != 0 && r.client != owner {
        return NOT_PERMITTED, info;
      }
      status := DoOperate(a, r, now);
      if r.op == QUERY && !r.outRoom {
        QueryNeedsRoom(backend, a, r, now);
        return;
      }
      if r.op == QUERY && status == SUCCESS {
        info := Some(Info(state, if state == Failed then error else SUCCESS, backend.active, backend.capacity, high));
      }
      if state == Ready {
        owner := 0;
      } else if owner != 0 && r.client == owner && r.op != QUERY && r.op != START {
        tick := now;
      }
    }
  }
}
