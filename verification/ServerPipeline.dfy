/** Ties the audit pipeline to the handlers: the script of a request is what the code of
    Server/NebirosServer.go does with it, and the pipeline's results read in its terms. */
module ServerPipeline {
  import opened Wrappers
  import opened Commands
  import opened Records
  import S = Server
  import P = AuditPipeline

  function EndingOf(table: seq<ValidCommand>, req: S.Request): P.Ending {
    if !S.Resolves(table, req) then P.Panics
    else
      match S.Resolved(table, req)
      case AksStartCommand(c) => P.Status(GetNullString(req.userId), GetNullString(c), GetNullString("Running"))
      case AksStopCommand(c) => P.Status(GetNullString(req.userId), GetNullString(c), GetNullString("Stopped"))
      case _ => P.Plain
  }

  function ScriptOf(table: seq<ValidCommand>, req: S.Request): P.Script {
    P.Script(req.userId != "", S.AuditOf(table, req), EndingOf(table, req))
  }

  /** The records the pipeline sends for a served script, with the clock at the second one. */
  function Sent(sc: P.Script, kind: P.Kind, now: Time): seq<Record> {
    [sc.audit] + if sc.ending.Status? then [P.StatusRecord(sc.ending, kind, now)] else []
  }

  /** A script sends what ExecCommand and CommandListener send, record for record, and dies
      where they panic. */
  lemma ScriptIsTheCode(table: seq<ValidCommand>, req: S.Request, now: Time)
    ensures P.Emits(ScriptOf(table, req)) == S.Emits(table, req)
    ensures ScriptOf(table, req).ending.Panics? <==> !S.Resolves(table, req)
    ensures Sent(ScriptOf(table, req), P.Unary, now) == S.RecordsOf(table, req, now, KUBERNETES)
    ensures Sent(ScriptOf(table, req), P.Stream, now) == S.RecordsOf(table, req, now, COMMAND)
  {
    if S.Resolves(table, req) {
      var c := S.Resolved(table, req);
      if S.ChangesPower(c) {
        assert Sent(ScriptOf(table, req), P.Unary, now)[1] == S.StatusOf(c, req.userId, now, KUBERNETES);
      }
    }
  }

  /** Handler h runs the scripts of these requests. */
  ghost predicate Serves(table: seq<ValidCommand>, s: P.State, h: nat, reqs: seq<S.Request>) {
    && h < |s.handlers|
    && |s.handlers[h].scripts| == |reqs|
    && forall k :: 0 <= k < |reqs| ==> s.handlers[h].scripts[k] == ScriptOf(table, reqs[k])
  }

  /** What a served request has sent is what the handlers send for it. */
  lemma RequestEmits(table: seq<ValidCommand>, run: seq<P.State>, i: nat, h: nat, reqs: seq<S.Request>, k: nat)
    requires P.IsRun(run) && i < |run| && Serves(table, run[i], h, reqs)
    requires k < |reqs| && k < run[i].handlers[h].next
    ensures P.OfRequest(run[i].sent, h, k) == S.Emits(table, reqs[k]) && S.Resolves(table, reqs[k])
  {
    P.RunWf(run, i);
    assert P.HandlerWf(run[i].handlers[h]);
    P.FinishedRequest(run, i, h, k);
    ScriptIsTheCode(table, reqs[k], 0);
  }

  /** In every interleaving a finished request has left one audit record of its user, and one
      status record if and only if it asked for aks-start or aks-stop, and nothing else. */
  lemma RequestLeaves(table: seq<ValidCommand>, run: seq<P.State>, i: nat, h: nat, reqs: seq<S.Request>, k: nat)
    requires S.Consistent(table)
    requires P.IsRun(run) && i < |run| && Serves(table, run[i], h, reqs)
    requires k < |reqs| && k < run[i].handlers[h].next
    ensures P.OfRequest(run[i].sent, h, k) == S.Emits(table, reqs[k])
    ensures var rs := P.OfRequest(run[i].sent, h, k);
            && |rs| == (if reqs[k].cmdName == "aks-start" || reqs[k].cmdName == "aks-stop" then 2 else 1)
            && rs[0].AuditRecord? && rs[0].user == GetNullString(reqs[k].userId)
            && (|rs| == 2 ==>
                  && rs[1].KubeStatusRecord?
                  && rs[1].status == GetNullString(if reqs[k].cmdName == "aks-start" then "Running" else "Stopped"))
  {
    RequestEmits(table, run, i, h, reqs, k);
    S.EmitsByName(table, reqs[k]);
  }

  lemma ScriptsEmit(table: seq<ValidCommand>, s: P.State, h: nat, reqs: seq<S.Request>, n: nat)
    requires Serves(table, s, h, reqs) && n <= |reqs|
    ensures P.EmitsAll(s.handlers[h].scripts, n) == S.EmitsAll(table, reqs, n)
  {
    var scripts := s.handlers[h].scripts;
    forall i | 0 <= i < n
      ensures P.Emits(scripts[i]) == S.Emits(table, reqs[i])
    {
      ScriptIsTheCode(table, reqs[i], 0);
    }
    assert seq(n, i requires 0 <= i < n => P.Emits(scripts[i])) == seq(n, i requires 0 <= i < n => S.Emits(table, reqs[i]));
  }

  lemma {:induction false} CutIsServed(table: seq<ValidCommand>, reqs: seq<S.Request>, k: nat, n: nat)
    requires k <= n <= |reqs|
    requires forall j :: k <= j < n ==> reqs[j].userId != "" && S.Resolves(table, reqs[j])
    requires n < |reqs| ==> reqs[n].userId == ""
    ensures S.Served(table, reqs, k).0 == n
    decreases n - k
  {
    if k < n {
      CutIsServed(table, reqs, k + 1, n);
    }
  }

  /** In every interleaving a handler that has returned, of either kind, has sent what
      ExecCommand sends for each of its requests in turn, as far as they are served. */
  lemma HandlerLeaves(table: seq<ValidCommand>, run: seq<P.State>, i: nat, h: nat, reqs: seq<S.Request>)
    requires P.IsRun(run) && i < |run| && Serves(table, run[i], h, reqs) && run[i].handlers[h].pc.Finished?
    ensures P.OfHandler(run[i].sent, h) == S.EmitsAll(table, reqs, S.Served(table, reqs, 0).0)
  {
    P.FinishedHandler(run, i, h);
    var scripts := run[i].handlers[h].scripts;
    var n := P.Cut(scripts);
    forall j | 0 <= j < n
      ensures reqs[j].userId != "" && S.Resolves(table, reqs[j])
    {
      assert scripts[j].hasUser && !scripts[j].ending.Panics?;
      ScriptIsTheCode(table, reqs[j], 0);
    }
    CutIsServed(table, reqs, 0, n);
    ScriptsEmit(table, run[i], h, reqs, n);
  }

  /** When the process dies, a handler stands on a request that did not resolve, which has left
      exactly its audit record; it is the end of the run, and records are lost if and only if
      some are still queued. */
  lemma CrashedRequest(table: seq<ValidCommand>, run: seq<P.State>, i: nat, requests: seq<seq<S.Request>>) returns (h: nat)
    requires P.IsRun(run) && i < |run| && run[i].crashed
    requires |requests| == |run[i].handlers|
    requires forall g :: 0 <= g < |requests| ==> Serves(table, run[i], g, requests[g])
    ensures i == |run| - 1 && h < |requests| && run[i].handlers[h].next < |requests[h]|
    ensures var k := run[i].handlers[h].next;
            && requests[h][k].userId != "" && !S.Resolves(table, requests[h][k])
            && P.OfRequest(run[i].sent, h, k) == [S.AuditOf(table, requests[h][k]).Erase()]
    ensures run[i].sent <= run[i].taken <==> run[i].queue == []
  {
    h := P.CrashedState(run, i);
    var k := run[i].handlers[h].next;
    assert Serves(table, run[i], h, requests[h]);
    ScriptIsTheCode(table, requests[h][k], 0);
  }

  /** Someone asks for a command that the server does not have. */
  const UNKNOWN := S.Request("u", "aks-reboot", [], ClusterUnset, EMPTY_RESPONSE, None, 0, 0)

  lemma UnknownDoesNotResolve()
    ensures !S.Resolves(S.VALID_CMDS, UNKNOWN)
  {
    var table := S.VALID_CMDS;
    InCommandListFirst(table, "aks-reboot");
    assert "aks-reboot"[4] == 'r';
    forall i | 0 <= i < |table|
      ensures table[i].name != "aks-reboot"
    {
      assert i == 0 || i == 1 || i == 2 || i == 3 || i == 4;
      assert "aks-status"[5] == 't' && "aks-start"[4] == 's' && "aks-stop"[4] == 's' && "aks-config"[4] == 'c';
    }
  }

  /** It kills the server, and its own audit record is lost with it. */
  lemma UnknownCommandPanics() returns (run: seq<P.State>)
    ensures S.Served(S.VALID_CMDS, [UNKNOWN], 0) == (1, S.Panicked)
    ensures P.IsRun(run) && Serves(S.VALID_CMDS, run[|run| - 1], 0, [UNKNOWN])
    ensures var s := run[|run| - 1];
            s.crashed && s.taken == [] && s.queue == [P.Message(0, 0, S.AuditOf(S.VALID_CMDS, UNKNOWN))]
  {
    UnknownDoesNotResolve();
    run := P.CrashStrands(S.AuditOf(S.VALID_CMDS, UNKNOWN), 1);
  }
}
