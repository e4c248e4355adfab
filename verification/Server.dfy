/** The gRPC handlers and their dispatch (Server/NebirosServer.go). */
module Server {
  import opened Wrappers
  import opened Commands
  import opened Records
  import opened Sequences

  /** The table the server is built with. */
  const VALID_CMDS: seq<ValidCommand> := [
    ValidCommand("aks-status", NewAksStatusCommand),
    ValidCommand("aks-config", NewListAksConfigCommand),
    ValidCommand("aks-start", NewAksStartCommand),
    ValidCommand("aks-stop", NewAksStopCommand),
    ValidCommand("help", NewHelpCommand)]

  /** The second table, which only GetRemoteCommands reads. */
  const CMDS: seq<Command> := [
    AksStatusCommand("ALL"), ListAksConfigCommand, AksStartCommand(""), AksStopCommand(""), HelpCommand]

  /** Every entry is filed under the name its command answers to. */
  predicate Consistent(table: seq<ValidCommand>) {
    forall i :: 0 <= i < |table| ==> table[i].Call().Name() == table[i].name
  }

  /** The server's table is consistent, and its two tables list the same commands. */
  lemma ServerTables()
    ensures Consistent(VALID_CMDS)
    ensures |CMDS| == |VALID_CMDS|
    ensures forall i :: 0 <= i < |CMDS| ==> CMDS[i] == VALID_CMDS[i].Call()
    ensures CMDS == [AksStatusCommand("ALL"), ListAksConfigCommand, AksStartCommand(""), AksStopCommand(""), HelpCommand]
  {
    forall i | 0 <= i < |CMDS|
      ensures CMDS[i] == VALID_CMDS[i].Call() && VALID_CMDS[i].Call().Name() == VALID_CMDS[i].name
    {
      assert i == 0 || i == 1 || i == 2 || i == 3 || i == 4;
    }
  }

  /** A received command together with what the outside world answers while it is handled:
      the flag package, the command's own Run, and the clock inside DoCommand. */
  datatype Request = Request(
    userId: string, cmdName: string, cmdOpts: seq<string>,
    flags: FlagResult, run: CommandResponse, runError: Option<string>,
    startedAt: Time, failedAt: Time)

  /** Commands.Response together with the error returned beside it. A None command is nil. */
  datatype Response = Response(commandResult: CommandResponse, command: Option<Command>, err: Option<string>)

  function HandleCommandError(cr: CommandResponse, err: string, start: Time, end: Time): CommandResponse {
    cr.(cmdError := err, endTime := Some(end), execTime := Some(end - start))
  }

  /** What DoCommand must give, said without its steps. */
  predicate Resolves(table: seq<ValidCommand>, req: Request) {
    && req.cmdName != ""
    && InCommandList(table, req.cmdName).0
    && InitCommand(table[InCommandList(table, req.cmdName).1].Call(), req.flags).Some?
  }

  function Resolved(table: seq<ValidCommand>, req: Request): Command
    requires Resolves(table, req)
  {
    InitCommand(table[InCommandList(table, req.cmdName).1].Call(), req.flags).value
  }

  function Dispatch(table: seq<ValidCommand>, req: Request): (r: Response)
    ensures r.command.Some? <==> Resolves(table, req)
    ensures r.command.Some? ==> r == Response(req.run, Some(Resolved(table, req)), req.runError)
    ensures r.command.None? ==> r.err.Some? && r.commandResult.cmdError == r.err.value
    ensures r.command.None? ==> r.commandResult.cmdResult == ""
  {
    var cr := EMPTY_RESPONSE.(startTime := Some(req.startedAt));
    if req.cmdName == "" then
      var err := "no sub-command provided";
      Response(HandleCommandError(cr, err, req.startedAt, req.failedAt), None, Some(err))
    else if Resolves(table, req) then
      Response(req.run, Some(Resolved(table, req)), req.runError)
    else if InCommandList(table, req.cmdName).0 then
      var err := req.flags.msg;
      Response(HandleCommandError(cr, err, req.startedAt, req.failedAt), None, Some(err))
    else
      var err := "unknown sub-command: " + req.cmdName;
      Response(cr.(cmdError := err), None, Some(err))
  }

  /** Dispatch is sound: the first entry filed under the name decides, a command comes back
      exactly when the name is filed and Init succeeds, and it answers to the name asked for,
      so a type switch on its name cannot go wrong. */
  lemma DispatchSound(table: seq<ValidCommand>, req: Request)
    requires Consistent(table)
    ensures var c := Dispatch(table, req).command;
            && (c.Some? <==>
                && req.cmdName != ""
                && exists i: nat :: FirstAt(table, req.cmdName, i) && InitCommand(table[i].Call(), req.flags).Some?)
            && (c.Some? ==> c.value.Name() == req.cmdName)
            && (c.Some? && req.cmdName == "aks-start" ==> c.value.AksStartCommand?)
            && (c.Some? && req.cmdName == "aks-stop" ==> c.value.AksStopCommand?)
  {
    InCommandListFirst(table, req.cmdName);
    if InCommandList(table, req.cmdName).0 {
      assert FirstAt(table, req.cmdName, InCommandList(table, req.cmdName).1);
    }
  }

  /** The reply both handlers fill in from a DoCommand result. */
  function Reply(r: Response): CommandResponse {
    CommandResponse(
      if r.err.Some? then "" else r.commandResult.cmdResult + "\n",
      if r.err.Some? then r.commandResult.cmdError else "",
      r.commandResult.execTime, r.commandResult.startTime, r.commandResult.endTime)
  }

  function AuditOf(table: seq<ValidCommand>, req: Request): Record {
    NewAuditRecord(req.userId, req.cmdName, req.cmdOpts, Reply(Dispatch(table, req)))
  }

  /** The commands that leave a second record. */
  predicate ChangesPower(c: Command) {
    c.AksStartCommand? || c.AksStopCommand?
  }

  function StatusOf(c: Command, userId: string, now: Time, cmdType: CommandType): Record
    requires ChangesPower(c)
  {
    if c.AksStartCommand? then
      KubeStatusRecord(GetNullString(userId), GetNullString(c.startCluster), GetNullString("Running"), now, cmdType)
    else
      KubeStatusRecord(GetNullString(userId), GetNullString(c.stopCluster), GetNullString("Stopped"), now, cmdType)
  }

  /** The records one accepted request leaves: always its audit record, then a status record
      when it resolved to a start or a stop. */
  function RecordsOf(table: seq<ValidCommand>, req: Request, now: Time, cmdType: CommandType): seq<Record> {
    [AuditOf(table, req)] +
    if Resolves(table, req) && ChangesPower(Resolved(table, req))
    then [StatusOf(Resolved(table, req), req.userId, now, cmdType)] else []
  }

  /** The same, up to Tstp and CmdType. */
  function Emits(table: seq<ValidCommand>, req: Request): seq<Record> {
    EraseAll(RecordsOf(table, req, 0, COMMAND))
  }

  /** Names decide the second record: it is there exactly for a resolved aks-start or
      aks-stop, names the cluster given on the command line, and says which of the two. */
  lemma EmitsByName(table: seq<ValidCommand>, req: Request)
    requires Consistent(table)
    ensures Emits(table, req)[0].AuditRecord? && Emits(table, req)[0].user == GetNullString(req.userId)
    ensures |Emits(table, req)| ==
            if Resolves(table, req) && (req.cmdName == "aks-start" || req.cmdName == "aks-stop") then 2 else 1
    ensures |Emits(table, req)| == 2 ==>
              && Emits(table, req)[1].KubeStatusRecord?
              && Emits(table, req)[1].username == GetNullString(req.userId)
              && Emits(table, req)[1].status.str == (if req.cmdName == "aks-start" then "Running" else "Stopped")
              && (req.flags.ClusterSet? ==> Emits(table, req)[1].clusterName == GetNullString(req.flags.cluster))
              && (req.flags.ClusterUnset? ==> Emits(table, req)[1].clusterName == NullString("", false))
  {
    DispatchSound(table, req);
    if Resolves(table, req) {
      var c := Resolved(table, req);
      assert c.Name() == req.cmdName;
      assert c == InitCommand(table[InCommandList(table, req.cmdName).1].Call(), req.flags).value;
    }
  }

  /** What the audit record tells: who asked for what with which options, and either the
      result or the error, never both. An unknown command has no end, the other requests that
      do not resolve end where they failed. */
  lemma AuditTells(table: seq<ValidCommand>, req: Request)
    ensures var a, r := AuditOf(table, req), Dispatch(table, req);
            && a.AuditRecord?
            && a.user.str == req.userId && a.cmd.str == req.cmdName && a.opts.str == Join(req.cmdOpts, " ")
            && (a.result.valid <==> r.err.None?) && (a.errStr.valid ==> r.err.Some?)
            && (r.err.None? ==> a.result.str == r.commandResult.cmdResult + "\n")
            && (r.err.Some? ==> a.errStr.str == r.commandResult.cmdError)
            && Reply(r).startTime == r.commandResult.startTime && Reply(r).endTime == r.commandResult.endTime
            && Reply(r).execTime == r.commandResult.execTime
            && (Resolves(table, req) ==>
                  && r.commandResult == req.run && r.err == req.runError
                  && a.start == (if req.run.startTime.Some? then req.run.startTime.value else 0)
                  && a.end == (if req.run.endTime.Some? then req.run.endTime.value else 0))
            && (!Resolves(table, req) ==> a.start == req.startedAt && r.commandResult.startTime == Some(req.startedAt))
            && (!Resolves(table, req) && r.commandResult.endTime.Some? ==>
                  r.commandResult.execTime == Some(req.failedAt - req.startedAt))
            && (!Resolves(table, req) ==>
                  a.end == if req.cmdName == "" || InCommandList(table, req.cmdName).0 then req.failedAt else 0)
  {
  }

  /** One unary call after the other for the first n requests. */
  function EmitsAll(table: seq<ValidCommand>, reqs: seq<Request>, n: nat): seq<Record>
    requires n <= |reqs|
  {
    Concat(seq(n, i requires 0 <= i < n => Emits(table, reqs[i])))
  }

  /** The records the streaming handler sends for each request. */
  function StreamPieces(table: seq<ValidCommand>, reqs: seq<Request>, nows: nat -> Time): nat -> seq<Record> {
    (i: nat) => if i < |reqs| then RecordsOf(table, reqs[i], nows(i), COMMAND) else []
  }

  /** The records the streaming handler sends for the first n requests. */
  function Streamed(table: seq<ValidCommand>, reqs: seq<Request>, nows: nat -> Time, n: nat): seq<Record>
    requires n <= |reqs|
  {
    Concat(Build(StreamPieces(table, reqs, nows), n))
  }

  lemma StreamedNext(table: seq<ValidCommand>, reqs: seq<Request>, nows: nat -> Time, n: nat)
    requires n < |reqs|
    ensures Streamed(table, reqs, nows, n + 1)
         == Streamed(table, reqs, nows, n) + RecordsOf(table, reqs[n], nows(n), COMMAND)
  {
    ConcatBuildNext(StreamPieces(table, reqs, nows), n);
  }

  lemma SentNext(before: seq<Record>, table: seq<ValidCommand>, reqs: seq<Request>, nows: nat -> Time, n: nat)
    requires n < |reqs|
    ensures before + Streamed(table, reqs, nows, n) + RecordsOf(table, reqs[n], nows(n), COMMAND)
         == before + Streamed(table, reqs, nows, n + 1)
  {
    StreamedNext(table, reqs, nows, n);
    AppendAssoc(before, Streamed(table, reqs, nows, n), RecordsOf(table, reqs[n], nows(n), COMMAND));
  }

  /** The replies to the first n requests of a stream. */
  function Replies(table: seq<ValidCommand>, reqs: seq<Request>, n: nat): (rs: seq<CommandResponse>)
    requires n <= |reqs|
    ensures |rs| == n
  {
    Build((i: nat) => if i < |reqs| then Reply(Dispatch(table, reqs[i])) else EMPTY_RESPONSE, n)
  }

  lemma RepliesNext(table: seq<ValidCommand>, reqs: seq<Request>, n: nat)
    requires n < |reqs|
    ensures Replies(table, reqs, n + 1) == Replies(table, reqs, n) + [Reply(Dispatch(table, reqs[n]))]
  {
    BuildNext((i: nat) => if i < |reqs| then Reply(Dispatch(table, reqs[i])) else EMPTY_RESPONSE, n);
  }

  datatype StreamEnd = EndOfStream | NoUser | Panicked

  /** How many requests of a stream leave records, counting from the k-th, and why it stops. */
  function Served(table: seq<ValidCommand>, reqs: seq<Request>, k: nat): (r: (nat, StreamEnd))
    requires k <= |reqs|
    ensures k <= r.0 <= |reqs|
    decreases |reqs| - k
  {
    if k == |reqs| then (k, EndOfStream)
    else if reqs[k].userId == "" then (k, NoUser)
    else if !Resolves(table, reqs[k]) then (k + 1, Panicked)
    else Served(table, reqs, k + 1)
  }

  /** A stream is cut before its first request without a user, or just after its first
      request that does not resolve, and otherwise runs to its end. */
  lemma {:induction false} ServedIsCut(table: seq<ValidCommand>, reqs: seq<Request>, k: nat)
    requires k <= |reqs|
    ensures var (n, end) := Served(table, reqs, k);
            && (forall i :: k <= i < n ==> reqs[i].userId != "")
            && (forall i :: k <= i < n ==> Resolves(table, reqs[i]) || (end == Panicked && i == n - 1))
            && (end == EndOfStream <==> n == |reqs| && forall i :: k <= i < n ==> Resolves(table, reqs[i]))
            && (end == NoUser <==> n < |reqs| && reqs[n].userId == "" && forall i :: k <= i < n ==> Resolves(table, reqs[i]))
            && (end == Panicked ==> k < n && !Resolves(table, reqs[n - 1]))
    decreases |reqs| - k
  {
    if k < |reqs| && reqs[k].userId != "" && Resolves(table, reqs[k]) {
      ServedIsCut(table, reqs, k + 1);
    }
  }

  class NebirosServer {
    const validCmds: seq<ValidCommand>
    /** Everything sent on the audit channel so far; its bound is the subject of AuditPipeline. */
    var auditChan: seq<Record>

    /** Depends on the table alone, which never changes. */
    ghost predicate Valid() {
      Consistent(validCmds)
    }

    constructor ()
      ensures Valid() && validCmds == VALID_CMDS && auditChan == []
    {
      validCmds := VALID_CMDS;
      auditChan := [];
      ServerTables();
    }

    method DoCommand(req: Request) returns (response: Response)
      ensures response == Dispatch(validCmds, req)
    {
      var cr := EMPTY_RESPONSE;
      cr := cr.(startTime := Some(req.startedAt));
      if req.cmdName == "" {
        var err := "no sub-command provided";
        cr := HandleCommandError(cr, err, req.startedAt, req.failedAt);
        return Response(cr, None, Some(err));
      }
      var (ok, i) := InCommandList(validCmds, req.cmdName);
      if ok {
        var cmd := InitCommand(validCmds[i].Call(), req.flags);
        if cmd.None? {
          cr := HandleCommandError(cr, req.flags.msg, req.startedAt, req.failedAt);
          return Response(cr, None, Some(req.flags.msg));
        }
        return Response(req.run, cmd, req.runError);
      }
      var err := "unknown sub-command: " + req.cmdName;
      cr := cr.(cmdError := err);
      response := Response(cr, None, Some(err));
    }

    /** The unary handler. A command that did not resolve is nil, and asking its name panics
        after the audit record has been sent. */
    method ExecCommand(req: Request, now: Time)
      returns (reply: CommandResponse, err: Option<string>, panicked: bool)
      requires Valid()
      modifies this`auditChan
      ensures req.userId == "" ==> err.Some? && !panicked && auditChan == old(auditChan) && reply == EMPTY_RESPONSE
      ensures req.userId != "" ==> auditChan == old(auditChan) + RecordsOf(validCmds, req, now, KUBERNETES)
      ensures req.userId != "" ==> reply == Reply(Dispatch(validCmds, req)) && err == Dispatch(validCmds, req).err
      ensures panicked <==> req.userId != "" && !Resolves(validCmds, req)
    {
      reply := EMPTY_RESPONSE;
      panicked := false;
      if req.userId == "" {
        err := Some("no valid user set. aborting command execution.");
        return;
      }
      var result := DoCommand(req);
      err := result.err;
      if err.Some? {
        reply := reply.(cmdError := result.commandResult.cmdError);
      } else {
        reply := reply.(cmdResult := result.commandResult.cmdResult + "\n");
      }
      reply := reply.(startTime := result.commandResult.startTime);
      reply := reply.(endTime := result.commandResult.endTime);
      reply := reply.(execTime := result.commandResult.execTime);

      var auditRecord := NewAuditRecord(req.userId, req.cmdName, req.cmdOpts, reply);
      auditChan := auditChan + [auditRecord];
      if result.command.None? {
        panicked := true;
        return;
      }
      DispatchSound(validCmds, req);
      var name := result.command.value.Name();
      if name == "aks-start" {
        var record := NewKubeStatusRecord(result.command.value.startCluster, req.userId, "Running", now);
        auditChan := auditChan + [record];
      } else if name == "aks-stop" {
        var record := NewKubeStatusRecord(result.command.value.stopCluster, req.userId, "Stopped", now);
        auditChan := auditChan + [record];
      }
    }

    /** One turn of the streaming handler's loop, from a command with a user to its records. */
    method Handle(incmd: Request, now: Time) returns (response: CommandResponse, panicked: bool)
      requires Valid() && incmd.userId != ""
      modifies this`auditChan
      ensures auditChan == old(auditChan) + RecordsOf(validCmds, incmd, now, COMMAND)
      ensures response == Reply(Dispatch(validCmds, incmd))
      ensures panicked <==> !Resolves(validCmds, incmd)
    {
      response := EMPTY_RESPONSE;
      panicked := false;
      var result := DoCommand(incmd);
      if result.err.Some? {
        response := response.(cmdError := result.commandResult.cmdError);
      } else {
        response := response.(cmdResult := result.commandResult.cmdResult + "\n");
      }
      response := response.(startTime := result.commandResult.startTime);
      response := response.(endTime := result.commandResult.endTime);
      response := response.(execTime := result.commandResult.execTime);

      var auditRecord := NewAuditRecord(incmd.userId, incmd.cmdName, incmd.cmdOpts, response);
      auditChan := auditChan + [auditRecord];
      if result.command.None? {
        panicked := true;
        return;
      }
      DispatchSound(validCmds, incmd);
      var name := result.command.value.Name();
      if name == "aks-start" || name == "aks-stop" {
        // built field by field here, so that CmdType keeps its zero value
        var record := KubeStatusRecord(GetNullString(incmd.userId), NullString("", false), NullString("", false),
                                       now, COMMAND);
        if name == "aks-start" {
          record := record.(clusterName := GetNullString(result.command.value.startCluster));
          record := record.(status := GetNullString("Running"));
        } else {
          record := record.(clusterName := GetNullString(result.command.value.stopCluster));
          record := record.(status := GetNullString("Stopped"));
        }
        auditChan := auditChan + [record];
      }
    }

    /** The streaming handler: its requests' records go out one request after the other, as
        far as the stream is served. `nows` are the clock readings. */
    method CommandListener(reqs: seq<Request>, nows: nat -> Time)
      returns (replies: seq<CommandResponse>, end: StreamEnd, n: nat)
      requires Valid()
      modifies this`auditChan
      ensures (n, end) == Served(validCmds, reqs, 0)
      ensures replies == Replies(validCmds, reqs, n)
      ensures auditChan == old(auditChan) + Streamed(validCmds, reqs, nows, n)
    {
      n := 0;
      replies := [];
      end := EndOfStream;
      while n < |reqs|
        invariant n <= |reqs|
        invariant replies == Replies(validCmds, reqs, n)
        invariant auditChan == old(auditChan) + Streamed(validCmds, reqs, nows, n)
        invariant end == EndOfStream && Served(validCmds, reqs, 0) == Served(validCmds, reqs, n)
      {
        if reqs[n].userId == "" {
          end := NoUser;
          break;
        }
        RepliesNext(validCmds, reqs, n);
        SentNext(old(auditChan), validCmds, reqs, nows, n);
        var response, panicked := Handle(reqs[n], nows(n));
        replies := replies + [response];
        n := n + 1;
        if panicked {
          end := Panicked;
          break;
        }
      }
    }
  }

  /** Whatever the clock and the CmdType say, what is sent for a request is Emits. */
  lemma ClockDoesNotMatter(table: seq<ValidCommand>, req: Request, now: Time, cmdType: CommandType)
    ensures EraseAll(RecordsOf(table, req, now, cmdType)) == Emits(table, req)
  {
  }

  /** Streaming refines unary: up to Tstp and CmdType, what the streaming handler sends for
      the first n requests is what ExecCommand sends for each of them, one after the other. */
  lemma StreamingRefinesUnary(table: seq<ValidCommand>, reqs: seq<Request>, nows: nat -> Time, n: nat)
    requires n <= |reqs|
    ensures EraseAll(Streamed(table, reqs, nows, n)) == EmitsAll(table, reqs, n)
  {
    var sent := Build(StreamPieces(table, reqs, nows), n);
    var erased := seq(n, i requires 0 <= i < n => Emits(table, reqs[i]));
    forall i | 0 <= i < n
      ensures EraseAll(sent[i]) == erased[i]
    {
      ClockDoesNotMatter(table, reqs[i], nows(i), COMMAND);
    }
    EraseConcat(sent, erased);
  }
}
