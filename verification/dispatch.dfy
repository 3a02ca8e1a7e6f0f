/**
 * The decision half of the program's entry point: which speaker the command
 * line designates, and which single thing the program then does with it.
 * Nothing here talks to a speaker; the household snapshot is a parameter.
 */
module Dispatch {
  import opened Wrappers
  import opened Text
  import opened Topology
  import opened CliArguments

  /**
   * The result of looking a speaker up. `Unreachable` is a controller object
   * made for an address no speaker of the household has: making it succeeds,
   * but any request sent to it fails. `Raised` is a lookup that itself fails.
   */
  datatype Lookup = Absent | At(index: nat) | Unreachable(ip: string) | Raised

  /** The speaker at an address: the first one with that address, if any. */
  function Connect(s: seq<Speaker>, ip: string): (r: Lookup)
    ensures r.At? ==>
      (r.index < |s| && s[r.index].ip == ip && forall j :: 0 <= j < r.index ==> s[j].ip != ip)
    ensures r.Unreachable? <==> forall j :: 0 <= j < |s| ==> s[j].ip != ip
    ensures r.At? || r == Unreachable(ip)
    decreases |s|
  {
    if s == [] then Unreachable(ip)
    else if s[0].ip == ip then At(0)
    else
      var r := Connect(s[1..], ip);
      if r.At? then At(r.index + 1) else r
  }

  /**
   * `get_player_by_name`: the first speaker found with that name; none when
   * no speaker has it. Discovery finding no speaker at all yields nothing to
   * iterate over, which fails.
   */
  function ByName(s: seq<Speaker>, name: string): (r: Lookup)
    ensures |s| == 0 <==> r == Raised
    ensures r.At? ==>
      (r.index < |s| && s[r.index].name == name && forall j :: 0 <= j < r.index ==> s[j].name != name)
    ensures r == Absent <==> |s| > 0 && forall j :: 0 <= j < |s| ==> s[j].name != name
    ensures !r.Unreachable?
  {
    if s == [] then Raised else FirstNamed(s, name)
  }

  function FirstNamed(s: seq<Speaker>, name: string): (r: Lookup)
    ensures r.At? ==>
      (r.index < |s| && s[r.index].name == name && forall j :: 0 <= j < r.index ==> s[j].name != name)
    ensures r == Absent <==> forall j :: 0 <= j < |s| ==> s[j].name != name
    ensures r.At? || r.Absent?
    decreases |s|
  {
    if s == [] then Absent
    else if s[0].name == name then At(0)
    else
      var r := FirstNamed(s[1..], name);
      if r.At? then At(r.index + 1) else r
  }

  /**
   * `player.group.coordinator`: asking an unreachable speaker for its group
   * fails.
   */
  function Coordinate(s: seq<Speaker>, l: Lookup): (r: Lookup)
    requires Valid(s)
    requires l.At? ==> l.index < |s|
    ensures l.At? ==> r == At(s[l.index].coordinator) && IsCoordinator(s, r.index)
    ensures l.Unreachable? ==> r == Raised
    ensures l.Absent? || l.Raised? ==> r == l
  {
    match l
    case At(i) => At(s[i].coordinator)
    case Unreachable(_) => Raised
    case _ => l
  }

  /** Looking the coordinator up a second time changes nothing. */
  lemma CoordinateIdempotent(s: seq<Speaker>, l: Lookup)
    requires Valid(s)
    requires l.At? ==> l.index < |s|
    ensures var c := Coordinate(s, l);
      (c.At? ==> c.index < |s|) && Coordinate(s, c) == c
  {
  }

  /** Lookups that stay inside the household. */
  predicate InHousehold(s: seq<Speaker>, l: Lookup) {
    l.At? ==> l.index < |s|
  }

  /**
   * `define_player`: the address is used when given, the name overrides it
   * when given (each only when non-empty), and in group mode the speaker is
   * replaced by the coordinator of its group.
   */
  function DefinePlayer(s: seq<Speaker>, ip: Option<string>, name: Option<string>, group: bool): (r: Lookup)
    requires Valid(s)
    ensures InHousehold(s, r)
    ensures Truthy(name) ==> r == (if group then Coordinate(s, ByName(s, name.value)) else ByName(s, name.value))
    ensures !Truthy(name) && Truthy(ip) ==>
      r == (if group then Coordinate(s, Connect(s, ip.value)) else Connect(s, ip.value))
    ensures !Truthy(name) && !Truthy(ip) ==> r == Absent
    ensures group && r.At? ==> IsCoordinator(s, r.index)
    ensures group ==> !r.Unreachable?
  {
    var byIp := if Truthy(ip) then Connect(s, ip.value) else Absent;
    var player := if Truthy(name) then ByName(s, name.value) else byIp;
    if group then Coordinate(s, player) else player
  }

  /** `find_random_player`: the first speaker discovery yields, if any. */
  function FindRandomPlayer(s: seq<Speaker>): (r: Lookup)
    ensures |s| == 0 <==> r == Absent
    ensures r.At? ==> r.index < |s|
    ensures r.At? || r.Absent?
  {
    if |s| == 0 then Absent else At(0)
  }

  /** The actions the positional argument selects, all routed through group coordination. */
  datatype Transport = Play | Pause | Next | Previous | ShuffleOn | ShuffleOff

  /** One thing the program does to the designated speaker. */
  datatype Command =
    | PlayPlaylist(name: string)
    | PlayRadio(uri: string)
    | SetVolume(volume: int)
    | JoinSpeaker(given: string, target: Lookup)   // --join / --ipjoin, target already looked up
    | Unjoin
    | Act(transport: Transport)

  /** What one run of the program does. */
  datatype Plan =
    | Crash                          // a lookup failed before anything was done
    | ShowMenu(player: Lookup)       // render the BitBar menu, send no request
    | Run(player: Lookup, command: Command)
    | Nothing                        // a speaker was found but nothing was asked of it

  /** The positional argument that names a transport action. */
  function ActionName(t: Transport): string {
    match t
    case Play => "play"
    case Pause => "pause"
    case Next => "next"
    case Previous => "previous"
    case ShuffleOn => "shuffle"
    case ShuffleOff => "normal"
  }

  /** The positional action, compared after lower-casing. */
  function TransportFor(action: string): (r: Option<Transport>)
    ensures r.Some? <==> Lower(action) in Actions
    ensures r.Some? ==> ActionName(r.value) == Lower(action)
  {
    var a := Lower(action);
    if a == "play" then Some(Play)
    else if a == "pause" then Some(Pause)
    else if a == "next" then Some(Next)
    else if a == "previous" then Some(Previous)
    else if a == "shuffle" then Some(ShuffleOn)
    else if a == "normal" then Some(ShuffleOff)
    else None
  }

  /** Each action's own name, in any letter case, selects that action. */
  lemma TransportForName(t: Transport, action: string)
    requires Lower(action) == ActionName(t)
    ensures TransportFor(action) == Some(t)
  {
  }

  /** The names are already lower case, so each one selects its own action. */
  lemma ActionNameSelects(t: Transport)
    ensures TransportFor(ActionName(t)) == Some(t)
  {
    var a := ActionName(t);
    assert Lower(a) == a by {
      forall i | 0 <= i < |a| ensures Lower(a)[i] == a[i] {
        assert 'a' <= a[i] <= 'z';
      }
    }
    TransportForName(t, a);
  }

  /**
   * The command `main` picks for a resolved speaker: the first of playlist,
   * radio, volume, join by name, join by address, unjoin and the positional
   * action that was given.
   */
  function Choose(s: seq<Speaker>, args: Arguments, group: bool): (r: Option<Command>)
    requires Valid(s)
  {
    if Truthy(args.playlist) then Some(PlayPlaylist(args.playlist.value))
    else if Truthy(args.radio) then Some(PlayRadio(args.radio.value))
    else if args.vol.Some? then Some(SetVolume(args.vol.value))
    else if Truthy(args.join) then
      Some(JoinSpeaker(args.join.value, DefinePlayer(s, None, args.join, group)))
    else if Truthy(args.ipjoin) then
      Some(JoinSpeaker(args.ipjoin.value, DefinePlayer(s, args.ipjoin, None, group)))
    else if args.unjoin then Some(Unjoin)
    else if args.action.None? then None
    else
      match TransportFor(args.action.value)
      case Some(t) => Some(Act(t))
      case None => None
  }

  /**
   * `main`'s decision: look the speaker up; with no speaker, or when the
   * menu is asked for, render the menu (for the first discovered speaker
   * when none was named); otherwise run the chosen command, if any.
   */
  function Decide(s: seq<Speaker>, args: Arguments, group: bool): (p: Plan)
    requires Valid(s)
    ensures p.Run? ==> (p.player.At? && p.player.index < |s|) || p.player.Unreachable?
    ensures p.Run? && group ==> p.player.At? && IsCoordinator(s, p.player.index)
    ensures p.ShowMenu? ==> InHousehold(s, p.player) && !p.player.Raised?
    ensures p.Run? ==> Choose(s, args, group) == Some(p.command)
    ensures p.Run? && p.command.JoinSpeaker? ==> InHousehold(s, p.command.target)
  {
    var player := DefinePlayer(s, args.ip, args.player, group);
    if player.Raised? then Crash
    else if player.Absent? || args.bitbar then
      ShowMenu(if player.Absent? then FindRandomPlayer(s) else player)
    else
      var player := if group then Coordinate(s, player) else player;
      match Choose(s, args, group)
      case Some(c) => Run(player, c)
      case None => Nothing
  }

  /**
   * Every command the arguments ask for, in the order `main` tries them. The
   * positional action counts only when it names an action.
   */
  function Requested(s: seq<Speaker>, args: Arguments, group: bool): seq<Command>
    requires Valid(s)
  {
    (if Truthy(args.playlist) then [PlayPlaylist(args.playlist.value)] else [])
    + (if Truthy(args.radio) then [PlayRadio(args.radio.value)] else [])
    + (if args.vol.Some? then [SetVolume(args.vol.value)] else [])
    + (if Truthy(args.join) then [JoinSpeaker(args.join.value, DefinePlayer(s, None, args.join, group))] else [])
    + (if Truthy(args.ipjoin) then [JoinSpeaker(args.ipjoin.value, DefinePlayer(s, args.ipjoin, None, group))] else [])
    + (if args.unjoin then [Unjoin] else [])
    + (if args.action.Some? && TransportFor(args.action.value).Some?
       then [Act(TransportFor(args.action.value).value)] else [])
  }

  /**
   * At most one command runs, and it is the first one requested: a resolved
   * speaker (outside menu mode) gets exactly the head of the requests, and
   * nothing when there are none.
   */
  lemma {:induction false} FirstRequestWins(s: seq<Speaker>, args: Arguments, group: bool)
    requires Valid(s)
    ensures Choose(s, args, group) == if Requested(s, args, group) == [] then None
                                      else Some(Requested(s, args, group)[0])
  {
  }

  /**
   * Which plan the decision produces: a failed lookup crashes; no speaker or
   * `--bitbar` shows the menu; otherwise the first requested command runs on
   * the speaker (its coordinator in group mode), or nothing happens.
   */
  lemma DecideCases(s: seq<Speaker>, args: Arguments, group: bool)
    requires Valid(s)
    ensures var player := DefinePlayer(s, args.ip, args.player, group);
      var p := Decide(s, args, group);
      && (player.Raised? <==> p.Crash?)
      && (!player.Raised? && (player.Absent? || args.bitbar) <==> p.ShowMenu?)
      && (p.ShowMenu? && player.Absent? ==> p.player == FindRandomPlayer(s))
      && (p.ShowMenu? && !player.Absent? ==> p.player == player)
      && (p.Run? ==> p.player == player && Requested(s, args, group) != []
                     && p.command == Requested(s, args, group)[0])
      && (p.Nothing? <==> !player.Raised? && !player.Absent? && !args.bitbar
                          && Requested(s, args, group) == [])
  {
    FirstRequestWins(s, args, group);
    var player := DefinePlayer(s, args.ip, args.player, group);
    if group {
      CoordinateIdempotent(s, Coordinate(s, if Truthy(args.player) then ByName(s, args.player.value)
                                            else if Truthy(args.ip) then Connect(s, args.ip.value) else Absent));
    }
  }

  /**
   * For arguments the parser accepted, a given positional action is always
   * one of the six and is therefore requested, with no lower-casing needed.
   */
  lemma AcceptedActionRequested(s: seq<Speaker>, args: Arguments, group: bool)
    requires Valid(s) && Accepted(args) && args.action.Some?
    ensures Lower(args.action.value) == args.action.value
    ensures TransportFor(args.action.value).Some?
    ensures Requested(s, args, group)[|Requested(s, args, group)| - 1]
      == Act(TransportFor(args.action.value).value)
  {
    var a := args.action.value;
    assert Lower(a) == a by {
      forall i | 0 <= i < |a| ensures Lower(a)[i] == a[i] {
        assert 'a' <= a[i] <= 'z';
      }
    }
  }
}
