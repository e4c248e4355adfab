/** What the commands of the server come to, from their name and options to the entries they
    visit (Server/NebirosServer.go, Server/ServerCommands/ServerCommands.go). */
module CommandRuns {
  import opened Wrappers
  import opened Commands
  import opened Server
  import P = PowerState
  import R = PowerRuns

  lemma NamesDiffer()
    ensures "aks-status" != "aks-config" && "aks-status" != "aks-start" && "aks-status" != "aks-stop" && "aks-status" != "help"
    ensures "aks-config" != "aks-start" && "aks-config" != "aks-stop" && "aks-config" != "help"
    ensures "aks-start" != "aks-stop" && "aks-start" != "help" && "aks-stop" != "help"
  {
    assert "aks-status"[4] == 's' && "aks-config"[4] == 'c' && "help"[0] == 'h';
    assert "aks-start"[0] == 'a' && "aks-stop"[0] == 'a' && "aks-start"[6] == 'a' && "aks-stop"[6] == 'o';
  }

  /** Where the server's table lists a name. */
  lemma Listed(name: string)
    ensures FirstAt(VALID_CMDS, "aks-status", 0) && FirstAt(VALID_CMDS, "aks-config", 1)
    ensures FirstAt(VALID_CMDS, "aks-start", 2) && FirstAt(VALID_CMDS, "aks-stop", 3) && FirstAt(VALID_CMDS, "help", 4)
    ensures InCommandList(VALID_CMDS, name).0 <==> name in ["aks-status", "aks-config", "aks-start", "aks-stop", "help"]
  {
    NamesDiffer();
    InCommandListFirst(VALID_CMDS, name);
    assert |VALID_CMDS| == 5;
    forall i | 0 <= i < 5
      ensures VALID_CMDS[i].name == ["aks-status", "aks-config", "aks-start", "aks-stop", "help"][i]
    {
      assert i == 0 || i == 1 || i == 2 || i == 3 || i == 4;
    }
  }

  /** What the server answers to, exactly: the three cluster commands unless their options do not
      parse, and aks-config and help whatever their options; each name with its own command. */
  lemma ListedCommands(req: Request)
    ensures var c := Dispatch(VALID_CMDS, req).command;
            && (c.Some? <==>
                || (req.cmdName in ["aks-status", "aks-start", "aks-stop"] && !req.flags.FlagError?)
                || req.cmdName in ["aks-config", "help"])
            && (c.Some? ==>
                  && (c.value.AksStatusCommand? <==> req.cmdName == "aks-status")
                  && (c.value.ListAksConfigCommand? <==> req.cmdName == "aks-config")
                  && (c.value.AksStartCommand? <==> req.cmdName == "aks-start")
                  && (c.value.AksStopCommand? <==> req.cmdName == "aks-stop")
                  && (c.value.HelpCommand? <==> req.cmdName == "help"))
  {
    NamesDiffer();
    Listed(req.cmdName);
    ServerTables();
    DispatchSound(VALID_CMDS, req);
    InCommandListFirst(VALID_CMDS, req.cmdName);
  }

  /** What it refuses the others with. */
  lemma RefusalTexts(req: Request)
    ensures var r := Dispatch(VALID_CMDS, req);
            && (req.cmdName == "" ==> r.err == Some("no sub-command provided"))
            && (req.cmdName in ["aks-status", "aks-start", "aks-stop"] && req.flags.FlagError? ==> r.err == Some(req.flags.msg))
            && (req.cmdName != "" && req.cmdName !in ["aks-status", "aks-config", "aks-start", "aks-stop", "help"] ==>
                  r.err == Some("unknown sub-command: " + req.cmdName))
  {
    Listed(req.cmdName);
    ListedCommands(req);
    assert "aks-status" != "" && "aks-start" != "" && "aks-stop" != "";
  }

  /** Which entries aks-status visits: without an option all that have a resource group and a
      cluster name, with a cluster only those of that name; ALL is the same as no option. */
  lemma StatusVisits(req: Request, v: seq<P.Entry>)
    requires req.cmdName == "aks-status" && !req.flags.FlagError?
    ensures Dispatch(VALID_CMDS, req).command.Some? && Dispatch(VALID_CMDS, req).command.value.AksStatusCommand?
    ensures forall i :: i in P.MatchIndices(v, P.Status(Dispatch(VALID_CMDS, req).command.value.statusCluster), |v|) <==>
              && 0 <= i < |v| && v[i].resourceGroup != "" && v[i].clusterName != ""
              && (req.flags.ClusterUnset? || req.flags.cluster == "ALL" || req.flags.cluster == v[i].clusterName)
  {
    NamesDiffer();
    Listed(req.cmdName);
    ListedCommands(req);
    InCommandListFirst(VALID_CMDS, req.cmdName);
    P.MatchIndicesExact(v, P.Status(Dispatch(VALID_CMDS, req).command.value.statusCluster), |v|);
  }

  /** So a status run of the server refreshes exactly these, if the cloud answers for all. */
  lemma StatusRefreshes(req: Request, v: seq<P.Entry>, oracle: nat -> P.Outcome, i: nat)
    requires req.cmdName == "aks-status" && !req.flags.FlagError? && i < |v|
    requires forall k :: 0 <= k < |v| ==> oracle(k).Success?
    ensures Dispatch(VALID_CMDS, req).command.Some? && Dispatch(VALID_CMDS, req).command.value.AksStatusCommand?
    ensures var p := P.Run(v, P.Status(Dispatch(VALID_CMDS, req).command.value.statusCluster), oracle);
            && p.error.None? && |p.entries| == |v|
            && p.entries[i].name == v[i].name && p.entries[i].resourceGroup == v[i].resourceGroup
            && p.entries[i].clusterName == v[i].clusterName
            && (if && v[i].resourceGroup != "" && v[i].clusterName != ""
                   && (req.flags.ClusterUnset? || req.flags.cluster == "ALL" || req.flags.cluster == v[i].clusterName)
                then p.entries[i].powerState == oracle(i).info.powerCode && p.entries[i].clusterResponse == Some(oracle(i).info)
                else p.entries[i] == v[i])
  {
    StatusVisits(req, v);
    var cluster := Dispatch(VALID_CMDS, req).command.value.statusCluster;
    P.StatusUpdatesPrefix(v, cluster, oracle);
    P.StopOfIsFirstStop(v, P.Status(cluster), oracle);
    P.MatchIndicesExact(v, P.Status(cluster), |v|);
  }

  lemma ActResolves(req: Request, a: P.Action)
    requires req.cmdName == (if a.Start? then "aks-start" else "aks-stop") && !req.flags.FlagError?
    ensures var cluster := if req.flags.ClusterSet? then req.flags.cluster else "";
            Dispatch(VALID_CMDS, req).command == Some(if a.Start? then AksStartCommand(cluster) else AksStopCommand(cluster))
  {
    NamesDiffer();
    Listed(req.cmdName);
    ListedCommands(req);
    InCommandListFirst(VALID_CMDS, req.cmdName);
  }

  /** Which entries aks-start and aks-stop look at: those of the cluster given; without the
      option, none. */
  lemma ActVisits(req: Request, v: seq<P.Entry>, a: P.Action)
    requires req.cmdName == (if a.Start? then "aks-start" else "aks-stop") && !req.flags.FlagError?
    ensures var c := Dispatch(VALID_CMDS, req).command;
            && c.Some? && (if a.Start? then c.value.AksStartCommand? else c.value.AksStopCommand?)
            && var cluster := if a.Start? then c.value.startCluster else c.value.stopCluster;
               forall i :: i in P.MatchIndices(v, P.Act(a, cluster), |v|) <==>
                 && 0 <= i < |v| && v[i].resourceGroup != "" && v[i].clusterName != ""
                 && req.flags.ClusterSet? && req.flags.cluster == v[i].clusterName
  {
    ActResolves(req, a);
    P.MatchIndicesExact(v, P.Act(a, if req.flags.ClusterSet? then req.flags.cluster else ""), |v|);
  }

  /** The Run loop that a resolved command enters, if it has one. */
  function LoopOf(c: Command): Option<P.Command> {
    match c
    case AksStatusCommand(cluster) => Some(P.Status(cluster))
    case AksStartCommand(cluster) => Some(P.Act(P.Start, cluster))
    case AksStopCommand(cluster) => Some(P.Act(P.Stop, cluster))
    case _ => None
  }

  /** What AksStatusWatcher sends itself at every tick. */
  predicate IsWatcherRequest(req: Request) {
    req.cmdName == "aks-status" && req.cmdOpts == [] && req.userId == "NebirosServer" && req.flags.ClusterUnset?
  }

  /** The status watcher is one more job among the interleaved runs, over all entries: at its
      tick, in any state, a job starts at the first entry that, turn by turn, refreshes every
      configured entry that the cloud answers for, and leaves the others alone. */
  lemma WatcherIsAJob(req: Request, s: R.State, i: nat, o: P.Outcome)
    requires IsWatcherRequest(req) && i < |s.entries| && o.Success?
    ensures Dispatch(VALID_CMDS, req).command.Some? && LoopOf(Dispatch(VALID_CMDS, req).command.value).Some?
    ensures var cmd, j := LoopOf(Dispatch(VALID_CMDS, req).command.value).value, |s.jobs|;
            && R.Enabled(s, R.Launch(cmd))
            && R.Apply(s, R.Launch(cmd)).jobs[j] == R.Job(cmd, 0, R.AtEntry)
            && var t := s.(jobs := s.jobs + [R.Job(cmd, i, R.AtEntry)]);
               && R.Enabled(t, R.Advance(j, o)) && R.Allowed(R.Separate, t, R.Advance(j, o))
               && var t' := R.Apply(t, R.Advance(j, o));
                  && t'.jobs[j] == R.Job(cmd, i + 1, R.AtEntry)
                  && (if s.entries[i].resourceGroup != "" && s.entries[i].clusterName != ""
                      then t'.entries == s.entries[i := P.Refresh(s.entries[i], o.info)]
                      else t'.entries == s.entries)
  {
    StatusVisits(req, s.entries);
    NamesDiffer();
    Listed(req.cmdName);
    InCommandListFirst(VALID_CMDS, req.cmdName);
  }
}
