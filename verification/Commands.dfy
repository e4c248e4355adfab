/** Command lookup and the server's commands (Commands/Commands.go and the
    constructors, Init and Name methods of Server/ServerCommands/ServerCommands.go). */
module Commands {
  import opened Wrappers

  /** A value of the Command interface. Each dynamic type has its own field names, so a
      destructor use below is a type assertion that the verifier has to justify. */
  datatype Command =
    | AksStatusCommand(statusCluster: string)
    | ListAksConfigCommand
    | AksStartCommand(startCluster: string)
    | AksStopCommand(stopCluster: string)
    | HelpCommand
  {
    function Name(): string {
      match this
      case AksStatusCommand(_) => "aks-status"
      case ListAksConfigCommand => "aks-config"
      case AksStartCommand(_) => "aks-start"
      case AksStopCommand(_) => "aks-stop"
      case HelpCommand => "help"
    }
  }

  /** The constructor functions a table entry can hold; each takes one parameter. */
  datatype Constructor =
    | NewAksStatusCommand | NewListAksConfigCommand | NewAksStartCommand | NewAksStopCommand | NewHelpCommand

  datatype ValidCommand = ValidCommand(name: string, func: Constructor) {
    function Call(): Command {
      match func
      case NewAksStatusCommand => AksStatusCommand("ALL")
      case NewListAksConfigCommand => ListAksConfigCommand
      case NewAksStartCommand => AksStartCommand("")
      case NewAksStopCommand => AksStopCommand("")
      case NewHelpCommand => HelpCommand
    }
  }

  /** What parsing the command options with the flag package gives. */
  datatype FlagResult = FlagError(msg: string) | ClusterUnset | ClusterSet(cluster: string)

  /** Init: the command with its options applied, or None when parsing fails. */
  function InitCommand(c: Command, flags: FlagResult): (r: Option<Command>)
    ensures r.None? ==> flags.FlagError?
  {
    match c
    case ListAksConfigCommand => Some(c)
    case HelpCommand => Some(c)
    case _ =>
      match flags
      case FlagError(_) => None
      case ClusterUnset => Some(if c.AksStatusCommand? then AksStatusCommand("ALL") else c)
      case ClusterSet(name) =>
        Some(if c.AksStatusCommand? then AksStatusCommand(name)
             else if c.AksStartCommand? then AksStartCommand(name)
             else AksStopCommand(name))
  }

  function IndexFrom(list: seq<ValidCommand>, value: string, from: nat): (i: int)
    requires from <= |list|
    ensures -1 <= i < |list|
    decreases |list| - from
  {
    if from == |list| then -1
    else if list[from].name == value then from
    else IndexFrom(list, value, from + 1)
  }

  /** Whether the name is in the list, and the index of its first entry (or -1). */
  function InCommandList(list: seq<ValidCommand>, value: string): (r: (bool, int))
    ensures r.0 <==> 0 <= r.1 < |list|
  {
    var i := IndexFrom(list, value, 0);
    (i >= 0, i)
  }

  predicate FirstAt(list: seq<ValidCommand>, value: string, i: nat) {
    i < |list| && list[i].name == value && forall j :: 0 <= j < i ==> list[j].name != value
  }

  lemma {:induction false} IndexFromFinds(list: seq<ValidCommand>, value: string, from: nat)
    requires from <= |list| && forall j :: 0 <= j < from ==> list[j].name != value
    ensures var i := IndexFrom(list, value, from);
            if i >= 0 then FirstAt(list, value, i) else forall j :: 0 <= j < |list| ==> list[j].name != value
    decreases |list| - from
  {
    if from < |list| && list[from].name != value {
      IndexFromFinds(list, value, from + 1);
    }
  }

  /** The lookup answers yes exactly when the name is listed, and with its first index. */
  lemma InCommandListFirst(list: seq<ValidCommand>, value: string)
    ensures InCommandList(list, value).0 <==> exists i :: 0 <= i < |list| && list[i].name == value
    ensures forall i: nat :: FirstAt(list, value, i) <==> InCommandList(list, value) == (true, i)
    ensures !InCommandList(list, value).0 ==> InCommandList(list, value).1 == -1
  {
    IndexFromFinds(list, value, 0);
  }
}
