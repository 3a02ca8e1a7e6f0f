/**
 * The acting half of the program's entry point: the household of speakers
 * as the program changes it, the requests it sends through the controller
 * library and the lines it prints, in the order they happen.
 */
module Controller {
  import opened Wrappers
  import opened Text
  import opened Topology
  import opened CliArguments
  import opened BitbarOutput
  import opened Dispatch

  /** A request sent to a speaker (by index) through the controller library. */
  datatype Request =
    | Unjoined(player: nat)
    | Joined(player: nat, coordinator: nat)
    | QueueCleared(player: nat)
    | Queued(player: nat, item: string)
    | PlayedFromQueue(player: nat, position: nat)
    | UriSet(player: nat, uri: string)
    | Started(player: nat)
    | Paused(player: nat)
    | Skipped(player: nat)
    | WentBack(player: nat)
    | ModeSet(player: nat, mode: string)
    | VolumeSet(player: nat, volume: int)

  /** What an observer sees of a run: printed lines and sent requests, interleaved. */
  datatype Event = Printed(line: string) | Sent(request: Request)

  /** An `unjoin` request, to any speaker. */
  predicate Unjoins(e: Event) {
    e.Sent? && e.request.Unjoined?
  }

  /** No `unjoin` request among the events. */
  predicate NoUnjoins(es: seq<Event>) {
    forall i :: 0 <= i < |es| ==> !Unjoins(es[i])
  }

  lemma NoUnjoinsAppend(a: seq<Event>, b: seq<Event>)
    requires NoUnjoins(a) && NoUnjoins(b)
    ensures NoUnjoins(a + b)
  {
  }

  /** The result of one command: the household afterwards, what was seen, and whether it failed. */
  datatype Outcome = Outcome(speakers: seq<Speaker>, events: seq<Event>, raised: bool)

  function Outputs(lines: seq<string>): (es: seq<Event>)
    ensures |es| == |lines|
    ensures forall i :: 0 <= i < |lines| ==> es[i] == Printed(lines[i])
  {
    seq(|lines|, i requires 0 <= i < |lines| => Printed(lines[i]))
  }

  predicate NoRequests(es: seq<Event>) {
    forall i :: 0 <= i < |es| ==> es[i].Printed?
  }

  /** The lines shown when discovery finds no speaker. */
  const NoZone: seq<string> := ["🔇 Sonos", "---", "No Sonos Zone present"]

  /** The error line of `invalid_command`. */
  function ErrorLine(err: string): string {
    "ERROR: " + err
  }

  const UnknownTarget: string := "Target to join is not known"

  /** The zones of a valid household, with every master inside it. */
  function ZonesOf(s: seq<Speaker>): (zones: seq<Zone>)
    requires Valid(s)
    ensures MastersInRange(zones, |s|)
    ensures zones == Classify(AllGroups(s))
  {
    AllGroupsPartition(s);
    Classify(AllGroups(s))
  }

  /** The menu of a valid household. */
  function HouseholdMenu(path: string, s: seq<Speaker>, lib: Library): seq<string>
    requires Valid(s)
  {
    Menu(path, s, lib, ZonesOf(s))
  }

  /** The verbose message of a transport action. */
  function TransportMessage(t: Transport): string {
    match t
    case Play => "Play"
    case Pause => "Pause"
    case Next => "Next track"
    case Previous => "Previous track"
    case ShuffleOn => "Shuffle ON"
    case ShuffleOff => "Shuffle OFF"
  }

  /** The request a transport action sends to speaker `p`. */
  function TransportRequest(t: Transport, p: nat): Request {
    match t
    case Play => Started(p)
    case Pause => Paused(p)
    case Next => Skipped(p)
    case Previous => WentBack(p)
    case ShuffleOn => ModeSet(p, "SHUFFLE_NOREPEAT")
    case ShuffleOff => ModeSet(p, "NORMAL")
  }

  /** The items of the first playlist with that title, if there is one. */
  function FindPlaylist(playlists: seq<Playlist>, name: string): (r: Option<seq<string>>)
    ensures r.None? <==> forall j :: 0 <= j < |playlists| ==> playlists[j].title != name
    ensures r.Some? ==> exists j :: (0 <= j < |playlists| && playlists[j].title == name
      && playlists[j].items == r.value
      && forall i :: 0 <= i < j ==> playlists[i].title != name)
    decreases |playlists|
  {
    if playlists == [] then None
    else if playlists[0].title == name then Some(playlists[0].items)
    else
      var r := FindPlaylist(playlists[1..], name);
      assert r.Some? ==> exists j :: (1 <= j < |playlists| && playlists[j].title == name
        && playlists[j].items == r.value
        && forall i :: 0 <= i < j ==> playlists[i].title != name) by {
        if r.Some? {
          var j :| 0 <= j < |playlists[1..]| && playlists[1..][j].title == name
            && playlists[1..][j].items == r.value
            && forall i :: 0 <= i < j ==> playlists[1..][i].title != name;
          assert playlists[j + 1].items == r.value;
          forall i | 0 <= i < j + 1 ensures playlists[i].title != name {
            if i > 0 {
              assert playlists[i] == playlists[1..][i - 1];
            }
          }
        }
      }
      r
  }

  /** The `add_to_queue` requests for the items of a playlist, in order. */
  function QueueEvents(p: nat, items: seq<string>): (es: seq<Event>)
    ensures |es| == |items|
  {
    seq(|items|, i requires 0 <= i < |items| => Sent(Queued(p, items[i])))
  }

  /** The `join` requests of a fan-out, all towards the coordinator `c`. */
  function JoinEvents(ms: seq<nat>, c: nat): (es: seq<Event>)
    ensures |es| == |ms|
    decreases |ms|
  {
    if ms == [] then []
    else JoinEvents(ms[..|ms| - 1], c) + [Sent(Joined(ms[|ms| - 1], c))]
  }

  /**
   * Every volume the parser lets through is one the menu can show: it is in
   * 0..100, so exactly one bucket of the ladder carries the checkmark.
   */
  lemma AcceptedVolumeMarked(args: Arguments)
    requires Accepted(args) && args.vol.Some?
    ensures 0 <= args.vol.value <= 100
    ensures forall b :: 0 <= b <= 10 ==> (Selected(args.vol.value, b) <==> b == (args.vol.value + 9) / 10)
  {
    forall b | 0 <= b <= 10
      ensures Selected(args.vol.value, b) <==> b == (args.vol.value + 9) / 10
    {
      SelectedBucket(args.vol.value, b);
    }
  }

  lemma AppendAssoc<T>(a: seq<T>, b: seq<T>, c: seq<T>)
    ensures a + (b + c) == (a + b) + c
  {
  }

  lemma JoinEventsSnoc(ms: seq<nat>, c: nat, k: nat)
    requires k < |ms|
    ensures JoinEvents(ms[..k + 1], c) == JoinEvents(ms[..k], c) + [Sent(Joined(ms[k], c))]
  {
    assert ms[..k + 1][..k] == ms[..k];
  }

  /** The fan-out sends exactly one `join` towards `c` per listed speaker, in order. */
  lemma {:induction false} JoinEventsAt(ms: seq<nat>, c: nat)
    ensures forall i :: 0 <= i < |ms| ==> JoinEvents(ms, c)[i] == Sent(Joined(ms[i], c))
    decreases |ms|
  {
    if ms != [] {
      var init := ms[..|ms| - 1];
      JoinEventsAt(init, c);
      assert forall i :: 0 <= i < |init| ==> init[i] == ms[i];
    }
  }

  /**
   * The household as the program sees and changes it. `group` and `verbose`
   * are the `--group` and `--verbose` flags, fixed for the whole run.
   */
  class Household {
    var speakers: seq<Speaker>
    var trace: seq<Event>
    const group: bool
    const verbose: bool

    predicate Valid()
      reads this
    {
      Topology.Valid(speakers)
    }

    constructor(s: seq<Speaker>, group: bool, verbose: bool)
      requires Topology.Valid(s)
      ensures Valid()
      ensures speakers == s && trace == []
      ensures this.group == group && this.verbose == verbose
    {
      speakers := s;
      trace := [];
      this.group := group;
      this.verbose := verbose;
    }

    /** The line `verbose_output` prints for `msg`: nothing unless verbose. */
    function VerboseLines(msg: string): seq<Event> {
      if verbose then [Printed((if group then "Group " else "Player ") + ": " + msg)] else []
    }

    /** The household after the step `group_coordinate` takes before an action. */
    function Prepared(s: seq<Speaker>, p: nat): seq<Speaker>
      requires Topology.Valid(s) && p < |s|
    {
      if group then s else Leave(s, p)
    }

    function PreparedEvents(p: nat): seq<Event> {
      if group then [] else [Sent(Unjoined(p))]
    }

    /** The household after a transport action on `p`: only shuffle and normal set a field. */
    function AfterTransport(s: seq<Speaker>, p: nat, t: Dispatch.Transport): (r: seq<Speaker>)
      requires Topology.Valid(s) && p < |s|
      ensures |r| == |s| && Topology.Valid(r)
    {
      var prepared := Prepared(s, p);
      if t.ShuffleOn? || t.ShuffleOff? then
        prepared[p := prepared[p].(playMode := TransportRequest(t, p).mode)]
      else prepared
    }

    /**
     * What one command does to speaker `p` of household `s`: the household
     * afterwards, the lines printed and requests sent in order, and whether
     * the run fails. A join target is already looked up.
     */
    function Effect(s: seq<Speaker>, p: nat, command: Command, lib: Library): (o: Outcome)
      requires Topology.Valid(s) && p < |s|
      requires command.JoinSpeaker? ==> InHousehold(s, command.target)
      ensures |o.speakers| == |s| && Topology.Valid(o.speakers)
    {
      match command
      case PlayPlaylist(name) =>
        var head := PreparedEvents(p) + VerboseLines("Play playlist " + name) + [Sent(QueueCleared(p))];
        (match FindPlaylist(lib.playlists, name)
         case None => Outcome(Prepared(s, p), head, true)
         case Some(items) =>
           Outcome(Prepared(s, p), head + QueueEvents(p, items) + [Sent(PlayedFromQueue(p, 0))], false))
      case PlayRadio(uri) =>
        Outcome(Prepared(s, p), PreparedEvents(p) + VerboseLines("Switching to radio station " + uri)
          + [Sent(UriSet(p, uri)), Sent(Started(p))], false)
      case SetVolume(v) =>
        Outcome(s[p := s[p].(volume := v)],
          VerboseLines("Setting the volume to " + IntToString(v)) + [Sent(VolumeSet(p, v))], false)
      case JoinSpeaker(given, target) =>
        var said := VerboseLines("Joining " + given);
        (match target
         case Absent => Outcome(s, said + [Printed(ErrorLine(UnknownTarget))], false)
         case At(t) =>
           var c := s[t].coordinator;
           var ms := Members(s, s[p].coordinator);
           if group then Outcome(JoinAll(s, ms, t), said + JoinEvents(ms, c), false)
           else Outcome(JoinGroup(s, p, c), said + [Sent(Joined(p, c))], false)
         case _ => Outcome(s, said, true))
      case Unjoin =>
        Outcome(Leave(s, p), VerboseLines("Unjoin") + [Sent(Unjoined(p))], false)
      case Act(t) =>
        Outcome(AfterTransport(s, p, t),
          PreparedEvents(p) + VerboseLines(TransportMessage(t)) + [Sent(TransportRequest(t, p))], false)
    }

    /**
     * Only `--unjoin` asks for an `unjoin` of its own: in group mode no other
     * command sends one, and neither do the unwrapped volume and join
     * commands outside it.
     */
    lemma OnlyUnjoinBreaksGroups(s: seq<Speaker>, p: nat, command: Command, lib: Library)
      requires Topology.Valid(s) && p < |s|
      requires command.JoinSpeaker? ==> InHousehold(s, command.target)
      requires !command.Unjoin? && (group || command.SetVolume? || command.JoinSpeaker?)
      ensures NoUnjoins(Effect(s, p, command, lib).events)
    {
      match command {
        case PlayPlaylist(name) =>
          var said := VerboseLines("Play playlist " + name) + [Sent(QueueCleared(p))];
          assert NoUnjoins(said);
          match FindPlaylist(lib.playlists, name) {
            case None =>
            case Some(items) =>
              assert NoUnjoins(QueueEvents(p, items) + [Sent(PlayedFromQueue(p, 0))]);
              NoUnjoinsAppend(said, QueueEvents(p, items) + [Sent(PlayedFromQueue(p, 0))]);
              assert said + QueueEvents(p, items) + [Sent(PlayedFromQueue(p, 0))]
                == said + (QueueEvents(p, items) + [Sent(PlayedFromQueue(p, 0))]);
          }
        case JoinSpeaker(given, target) =>
          var said := VerboseLines("Joining " + given);
          if target.At? && group {
            var ms := Members(s, s[p].coordinator);
            JoinEventsAt(ms, s[target.index].coordinator);
            NoUnjoinsAppend(said, JoinEvents(ms, s[target.index].coordinator));
          }
        case _ =>
      }
    }

    /**
     * In group mode, and for the volume in any mode, a command other than
     * join and unjoin leaves every speaker in the group it was in.
     */
    lemma GroupsKept(s: seq<Speaker>, p: nat, command: Command, lib: Library)
      requires Topology.Valid(s) && p < |s|
      requires !command.JoinSpeaker? && !command.Unjoin? && (group || command.SetVolume?)
      ensures var o := Effect(s, p, command, lib);
        forall i :: 0 <= i < |s| ==> o.speakers[i].coordinator == s[i].coordinator
    {
    }

    /**
     * Outside group mode a wrapped action first sends `unjoin` to its
     * speaker, which then is alone in its group while the action runs.
     */
    lemma WrappedActsAlone(s: seq<Speaker>, p: nat, command: Command, lib: Library)
      requires Topology.Valid(s) && p < |s| && !group
      requires command.PlayPlaylist? || command.PlayRadio? || command.Act?
      ensures var o := Effect(s, p, command, lib);
        && |o.events| > 0 && o.events[0] == Sent(Unjoined(p))
        && forall i :: 0 <= i < |s| ==> (o.speakers[i].coordinator == p <==> i == p)
    {
    }

    /**
     * A join to a known target moves the source into the target's group,
     * whose coordinator stays in charge and keeps its members; in group mode
     * the whole source group follows, one `join` per member in order;
     * speakers of neither group never change.
     */
    lemma JoinMovesSource(s: seq<Speaker>, p: nat, given: string, t: nat, lib: Library)
      requires Topology.Valid(s) && p < |s| && t < |s|
      ensures var o := Effect(s, p, JoinSpeaker(given, At(t)), lib);
        var c := s[t].coordinator;
        var r := s[p].coordinator;
        var ms := Members(s, r);
        var said := VerboseLines("Joining " + given);
        && !o.raised
        && o.speakers[p].coordinator == c && IsCoordinator(o.speakers, c)
        && (forall i :: 0 <= i < |s| && s[i].coordinator == c ==> o.speakers[i].coordinator == c)
        && (forall i :: 0 <= i < |s| && s[i].coordinator != c && s[i].coordinator != r ==>
              o.speakers[i] == s[i])
        && (group ==> forall i :: 0 <= i < |s| && s[i].coordinator == r ==> o.speakers[i].coordinator == c)
        && (group ==> (|o.events| == |said| + |ms| &&
              forall j :: 0 <= j < |ms| ==> o.events[|said| + j] == Sent(Joined(ms[j], c))))
        && (!group ==> o.events == said + [Sent(Joined(p, c))])
    {
      if group {
        var r := s[p].coordinator;
        GroupGathered(s, t, r);
        JoinEventsAt(Members(s, r), s[t].coordinator);
      }
    }

    /** A command fails exactly for an unknown playlist or a join target that cannot be asked. */
    lemma EffectFails(s: seq<Speaker>, p: nat, command: Command, lib: Library)
      requires Topology.Valid(s) && p < |s|
      requires command.JoinSpeaker? ==> InHousehold(s, command.target)
      ensures Effect(s, p, command, lib).raised <==>
        || (command.PlayPlaylist? && FindPlaylist(lib.playlists, command.name).None?)
        || (command.JoinSpeaker? && (command.target.Raised? || command.target.Unreachable?))
    {
    }

    /**
     * What a command for a speaker nobody answers for prints before its
     * first request fails: wrapped actions fail at the leading `unjoin`.
     */
    function UnreachableEvents(command: Command): (es: seq<Event>)
      ensures NoRequests(es)
    {
      match command
      case SetVolume(v) => VerboseLines("Setting the volume to " + IntToString(v))
      case JoinSpeaker(given, target) =>
        VerboseLines("Joining " + given) + (if target.Absent? then [Printed(ErrorLine(UnknownTarget))] else [])
      case Unjoin => VerboseLines("Unjoin")
      case _ => []
    }

    method Emit(line: string)
      modifies this
      ensures speakers == old(speakers) && trace == old(trace) + [Printed(line)]
    {
      trace := trace + [Printed(line)];
    }

    method EmitAll(lines: seq<string>)
      modifies this
      ensures speakers == old(speakers) && trace == old(trace) + Outputs(lines)
    {
      for k := 0 to |lines|
        invariant speakers == old(speakers) && trace == old(trace) + Outputs(lines[..k])
      {
        assert Outputs(lines[..k + 1]) == Outputs(lines[..k]) + [Printed(lines[k])];
        Emit(lines[k]);
      }
      assert lines[..|lines|] == lines;
    }

    /** `verbose_output`. */
    method VerboseOutput(msg: string)
      modifies this
      ensures speakers == old(speakers) && trace == old(trace) + VerboseLines(msg)
    {
      if verbose {
        Emit((if group then "Group " else "Player ") + ": " + msg);
      }
    }

    /** `invalid_command`: one error line, nothing else. */
    method InvalidCommand(err: string)
      modifies this
      ensures speakers == old(speakers) && trace == old(trace) + [Printed(ErrorLine(err))]
    {
      Emit("ERROR: " + err);
    }

    /** A speaker's `unjoin()`: it leaves its group. */
    method UnjoinPlayer(p: nat)
      requires Valid() && p < |speakers|
      modifies this
      ensures Valid()
      ensures speakers == Leave(old(speakers), p)
      ensures trace == old(trace) + [Sent(Unjoined(p))]
    {
      speakers := Leave(speakers, p);
      trace := trace + [Sent(Unjoined(p))];
    }

    /** A speaker's `join(c)`: it moves into the group coordinated by `c`. */
    method JoinPlayer(p: nat, c: nat)
      requires Valid() && p < |speakers| && IsCoordinator(speakers, c)
      modifies this
      ensures Valid()
      ensures speakers == JoinGroup(old(speakers), p, c)
      ensures trace == old(trace) + [Sent(Joined(p, c))]
    {
      speakers := JoinGroup(speakers, p, c);
      trace := trace + [Sent(Joined(p, c))];
    }

    /**
     * The step `group_coordinate` adds before every wrapped action: outside
     * group mode the speaker first leaves its group, so that the action
     * affects it alone; in group mode nothing happens.
     */
    method GroupCoordinate(p: nat)
      requires Valid() && p < |speakers|
      modifies this
      ensures Valid()
      ensures speakers == Prepared(old(speakers), p)
      ensures trace == old(trace) + PreparedEvents(p)
    {
      if !group {
        UnjoinPlayer(p);
      }
    }

    /** `play`, `pause`, `next_track`, `previous_track`, `turn_on_shuffle`, `turn_off_shuffle`. */
    method Transport(p: nat, t: Dispatch.Transport)
      requires Valid() && p < |speakers|
      modifies this
      ensures Valid()
      ensures speakers == AfterTransport(old(speakers), p, t)
      ensures trace == old(trace) + PreparedEvents(p) + VerboseLines(TransportMessage(t))
        + [Sent(TransportRequest(t, p))]
    {
      GroupCoordinate(p);
      match t {
        case Play =>
          VerboseOutput("Play");
          trace := trace + [Sent(Started(p))];
        case Pause =>
          VerboseOutput("Pause");
          trace := trace + [Sent(Paused(p))];
        case Next =>
          VerboseOutput("Next track");
          trace := trace + [Sent(Skipped(p))];
        case Previous =>
          VerboseOutput("Previous track");
          trace := trace + [Sent(WentBack(p))];
        case ShuffleOn =>
          VerboseOutput("Shuffle ON");
          SetPlayMode(p, "SHUFFLE_NOREPEAT");
        case ShuffleOff =>
          VerboseOutput("Shuffle OFF");
          SetPlayMode(p, "NORMAL");
      }
    }

    /** Assigning a speaker's `play_mode`. */
    method SetPlayMode(p: nat, mode: string)
      requires Valid() && p < |speakers|
      modifies this
      ensures Valid()
      ensures speakers == old(speakers)[p := old(speakers)[p].(playMode := mode)]
      ensures trace == old(trace) + [Sent(ModeSet(p, mode))]
    {
      speakers := speakers[p := speakers[p].(playMode := mode)];
      trace := trace + [Sent(ModeSet(p, mode))];
    }

    /** `set_volume`: not wrapped, so the speaker keeps its group. */
    method SetVolume(p: nat, volume: int)
      requires Valid() && p < |speakers|
      modifies this
      ensures Valid()
      ensures speakers == old(speakers)[p := old(speakers)[p].(volume := volume)]
      ensures trace == old(trace) + VerboseLines("Setting the volume to " + IntToString(volume))
        + [Sent(VolumeSet(p, volume))]
    {
      VerboseOutput("Setting the volume to " + IntToString(volume));
      speakers := speakers[p := speakers[p].(volume := volume)];
      trace := trace + [Sent(VolumeSet(p, volume))];
    }

    /** `get_songs_from_playlist`: the items of the first playlist with that title. */
    static method SongsFromPlaylist(lib: Library, name: string) returns (songs: Option<seq<string>>)
      ensures songs == FindPlaylist(lib.playlists, name)
    {
      for k := 0 to |lib.playlists|
        invariant FindPlaylist(lib.playlists[k..], name) == FindPlaylist(lib.playlists, name)
      {
        if lib.playlists[k].title == name {
          return Some(lib.playlists[k].items);
        }
        assert lib.playlists[k..][1..] == lib.playlists[k + 1..];
      }
      return None;
    }

    /**
     * `play_playlist`: the queue is cleared and refilled with the playlist's
     * items, then played from its start. An unknown title gets the queue
     * cleared and then fails, as the program iterates over nothing found.
     */
    method PlayPlaylist(p: nat, name: string, lib: Library) returns (raised: bool)
      requires Valid() && p < |speakers|
      modifies this
      ensures Valid()
      ensures speakers == Prepared(old(speakers), p)
      ensures raised <==> FindPlaylist(lib.playlists, name).None?
      ensures var head := old(trace) + PreparedEvents(p) + VerboseLines("Play playlist " + name)
                          + [Sent(QueueCleared(p))];
        trace == match FindPlaylist(lib.playlists, name)
                 case None => head
                 case Some(items) => head + QueueEvents(p, items) + [Sent(PlayedFromQueue(p, 0))]
    {
      GroupCoordinate(p);
      VerboseOutput("Play playlist " + name);
      var songs := SongsFromPlaylist(lib, name);
      trace := trace + [Sent(QueueCleared(p))];
      if songs.None? {
        return true;
      }
      raised := false;
      var items := songs.value;
      ghost var head := trace;
      for k := 0 to |items|
        invariant speakers == Prepared(old(speakers), p)
        invariant trace == head + QueueEvents(p, items[..k])
      {
        assert QueueEvents(p, items[..k + 1]) == QueueEvents(p, items[..k]) + [Sent(Queued(p, items[k]))];
        trace := trace + [Sent(Queued(p, items[k]))];
      }
      assert items[..|items|] == items;
      trace := trace + [Sent(PlayedFromQueue(p, 0))];
    }

    /** `play_radio_station`: the stream is set as the transport URI, then played. */
    method PlayRadio(p: nat, uri: string)
      requires Valid() && p < |speakers|
      modifies this
      ensures Valid()
      ensures speakers == Prepared(old(speakers), p)
      ensures trace == old(trace) + PreparedEvents(p) + VerboseLines("Switching to radio station " + uri)
        + [Sent(UriSet(p, uri)), Sent(Started(p))]
    {
      GroupCoordinate(p);
      VerboseOutput("Switching to radio station " + uri);
      trace := trace + [Sent(UriSet(p, uri))];
      trace := trace + [Sent(Started(p))];
    }

    /**
     * `join`: an unknown target only prints the error line. In group mode
     * every member of the source's group joins the target's coordinator; the
     * whole source group ends up there, the target's group keeps its members
     * and coordinator, and speakers of other groups are untouched. Otherwise
     * only the source joins. An unreachable target fails when asked for its
     * group.
     */
    method Join(source: nat, target: Lookup) returns (raised: bool)
      requires Valid() && source < |speakers|
      requires InHousehold(speakers, target) && !target.Raised?
      modifies this
      ensures Valid()
      ensures raised <==> target.Unreachable?
      ensures !target.At? ==> speakers == old(speakers)
      ensures target.Absent? ==> trace == old(trace) + [Printed(ErrorLine(UnknownTarget))]
      ensures target.Unreachable? ==> trace == old(trace)
      ensures target.At? && !group ==>
        var c := old(speakers)[target.index].coordinator;
        speakers == JoinGroup(old(speakers), source, c) && trace == old(trace) + [Sent(Joined(source, c))]
      ensures target.At? && group ==>
        var s := old(speakers);
        var r := s[source].coordinator;
        var c := s[target.index].coordinator;
        && speakers == JoinAll(s, Members(s, r), target.index)
        && Gathering(s, speakers, r, c)
        && (forall i :: 0 <= i < |s| && s[i].coordinator == r ==> speakers[i].coordinator == c)
        && trace == old(trace) + JoinEvents(Members(s, r), c)
    {
      if target.Absent? {
        InvalidCommand(UnknownTarget);
        return false;
      }
      if target.Unreachable? {
        return true;
      }
      raised := false;
      var t := target.index;
      if group {
        JoinMembers(source, t);
      } else {
        JoinPlayer(source, speakers[t].coordinator);
      }
    }

    /**
     * The group-mode branch of `join`: each member of the source's group, in
     * order, joins the coordinator of the target's group as it is at that
     * moment.
     */
    method JoinMembers(source: nat, t: nat)
      requires Valid() && source < |speakers| && t < |speakers|
      modifies this
      ensures Valid()
      ensures var s := old(speakers);
        var r := s[source].coordinator;
        var c := s[t].coordinator;
        && speakers == JoinAll(s, Members(s, r), t)
        && Gathering(s, speakers, r, c)
        && (forall i :: 0 <= i < |s| && s[i].coordinator == r ==> speakers[i].coordinator == c)
        && trace == old(trace) + JoinEvents(Members(s, r), c)
    {
      ghost var s := speakers;
      ghost var r := s[source].coordinator;
      ghost var c := s[t].coordinator;
      ghost var head := trace;
      var members := Members(speakers, speakers[source].coordinator);
      for k := 0 to |members|
        invariant speakers == JoinAll(s, members[..k], t)
        invariant trace == head + JoinEvents(members[..k], c)
      {
        FanOutStep(s, t, r, k);
        JoinPlayer(members[k], speakers[t].coordinator);
        JoinEventsSnoc(members, c, k);
        AppendAssoc(head, JoinEvents(members[..k], c), [Sent(Joined(members[k], c))]);
      }
      assert members[..|members|] == members;
      GroupGathered(s, t, r);
    }

    /**
     * `print_bitbar_controls`: with no speaker, the three "no zone" lines;
     * otherwise the menu of every zone of the household. An unreachable
     * speaker fails when asked for the household's groups.
     */
    method PrintBitbarControls(player: Lookup, lib: Library, path: string) returns (raised: bool)
      requires Valid() && InHousehold(speakers, player) && !player.Raised?
      modifies this
      ensures speakers == old(speakers)
      ensures raised <==> player.Unreachable?
      ensures player.Absent? ==> trace == old(trace) + Outputs(NoZone)
      ensures player.At? ==> trace == old(trace) + Outputs(HouseholdMenu(path, speakers, lib))
      ensures player.Unreachable? ==> trace == old(trace)
    {
      match player {
        case Absent =>
          Emit("🔇 Sonos");
          Emit("---");
          Emit("No Sonos Zone present");
          assert trace == old(trace) + Outputs(NoZone);
          return false;
        case Unreachable(_) =>
          return true;
        case At(_) =>
          var groups := AllGroups(speakers);
          var zones := ParseZoneGroups(groups);
          assert zones == ZonesOf(speakers);
          var lines := OutputForBitbar(path, speakers, lib, zones);
          EmitAll(lines);
          return false;
      }
    }

    /** One command on a speaker of the household: exactly its `Effect`. */
    method Execute(p: nat, command: Command, lib: Library) returns (raised: bool)
      requires Valid() && p < |speakers|
      requires command.JoinSpeaker? ==> InHousehold(speakers, command.target)
      modifies this
      ensures Valid()
      ensures var o := Effect(old(speakers), p, command, lib);
        speakers == o.speakers && trace == old(trace) + o.events && raised == o.raised
    {
      ghost var before := trace;
      match command {
        case PlayPlaylist(name) =>
          raised := PlayPlaylist(p, name, lib);
          ghost var said := PreparedEvents(p) + VerboseLines("Play playlist " + name);
          AppendAssoc(before, PreparedEvents(p), VerboseLines("Play playlist " + name));
          AppendAssoc(before, said, [Sent(QueueCleared(p))]);
          if raised == false {
            ghost var items := FindPlaylist(lib.playlists, name).value;
            ghost var head := said + [Sent(QueueCleared(p))];
            AppendAssoc(before, head, QueueEvents(p, items));
            AppendAssoc(before, head + QueueEvents(p, items), [Sent(PlayedFromQueue(p, 0))]);
          }
        case PlayRadio(uri) =>
          PlayRadio(p, uri);
          raised := false;
          ghost var said := VerboseLines("Switching to radio station " + uri);
          AppendAssoc(before, PreparedEvents(p), said);
          AppendAssoc(before, PreparedEvents(p) + said, [Sent(UriSet(p, uri)), Sent(Started(p))]);
        case SetVolume(v) =>
          SetVolume(p, v);
          raised := false;
          AppendAssoc(before, VerboseLines("Setting the volume to " + IntToString(v)), [Sent(VolumeSet(p, v))]);
        case JoinSpeaker(given, target) =>
          VerboseOutput("Joining " + given);
          ghost var said := VerboseLines("Joining " + given);
          ghost var s := speakers;
          if target.Raised? {
            raised := true;
          } else {
            raised := Join(p, target);
            if target.Absent? {
              AppendAssoc(before, said, [Printed(ErrorLine(UnknownTarget))]);
            } else if target.At? && group {
              AppendAssoc(before, said, JoinEvents(Members(s, s[p].coordinator), s[target.index].coordinator));
            } else if target.At? {
              AppendAssoc(before, said, [Sent(Joined(p, s[target.index].coordinator))]);
            }
          }
        case Unjoin =>
          VerboseOutput("Unjoin");
          UnjoinPlayer(p);
          raised := false;
          AppendAssoc(before, VerboseLines("Unjoin"), [Sent(Unjoined(p))]);
        case Act(t) =>
          Transport(p, t);
          raised := false;
          AppendAssoc(before, PreparedEvents(p), VerboseLines(TransportMessage(t)));
          AppendAssoc(before, PreparedEvents(p) + VerboseLines(TransportMessage(t)), [Sent(TransportRequest(t, p))]);
      }
    }

    /**
     * A command for a speaker at an address nobody has: the first request
     * to it fails. What is printed before that still appears; a join whose
     * target is unknown prints its error line and sends nothing.
     */
    method ExecuteUnreachable(command: Command) returns (raised: bool)
      requires !group
      modifies this
      ensures speakers == old(speakers)
      ensures raised <==> !(command.JoinSpeaker? && command.target.Absent?)
      ensures |old(trace)| <= |trace| && NoRequests(trace[|old(trace)|..])
      ensures trace == old(trace) + UnreachableEvents(command)
    {
      match command {
        case SetVolume(v) =>
          VerboseOutput("Setting the volume to " + IntToString(v));
        case JoinSpeaker(given, target) =>
          VerboseOutput("Joining " + given);
          if target.Absent? {
            InvalidCommand(UnknownTarget);
            assert NoRequests(trace[|old(trace)|..]);
            return false;
          }
        case Unjoin =>
          VerboseOutput("Unjoin");
        case _ =>
      }
      raised := true;
    }

    /**
     * `main`: one decision, then at most one command. Showing the menu and
     * doing nothing send no request and leave the household as it was.
     */
    method RunProgram(args: Arguments, lib: Library, path: string) returns (raised: bool)
      requires Valid() && Accepted(args)
      modifies this
      ensures Valid()
      ensures |old(trace)| <= |trace|
      ensures var plan := Decide(old(speakers), args, group);
        && (plan.Crash? ==> raised && speakers == old(speakers) && trace == old(trace))
        && (plan.Nothing? ==> !raised && speakers == old(speakers) && trace == old(trace))
        && (plan.ShowMenu? ==> speakers == old(speakers) && NoRequests(trace[|old(trace)|..]))
        && (plan == ShowMenu(Absent) ==> !raised && trace == old(trace) + Outputs(NoZone))
        && (plan.ShowMenu? && plan.player.At? ==>
              !raised && trace == old(trace) + Outputs(HouseholdMenu(path, speakers, lib)))
        && (plan.ShowMenu? && plan.player.Unreachable? ==> raised && trace == old(trace))
        && (plan.Run? && plan.player.At? ==>
              var o := Effect(old(speakers), plan.player.index, plan.command, lib);
              speakers == o.speakers && trace == old(trace) + o.events && raised == o.raised)
        && (plan.Run? && plan.player.Unreachable? ==>
              && speakers == old(speakers) && trace == old(trace) + UnreachableEvents(plan.command)
              && (raised <==> !(plan.command.JoinSpeaker? && plan.command.target.Absent?)))
    {
      var plan := Decide(speakers, args, group);
      match plan {
        case Crash =>
          raised := true;
        case Nothing =>
          raised := false;
        case ShowMenu(player) =>
          raised := PrintBitbarControls(player, lib, path);
          assert trace[|old(trace)|..] == Outputs(if player.Absent? then NoZone
                                                 else if player.At? then HouseholdMenu(path, speakers, lib)
                                                 else []);
        case Run(player, command) =>
          if player.At? {
            assert command.JoinSpeaker? ==> InHousehold(speakers, command.target) by {
              if command.JoinSpeaker? {
                assert Choose(speakers, args, group) == Some(command);
              }
            }
            raised := Execute(player.index, command, lib);
          } else {
            raised := ExecuteUnreachable(command);
          }
      }
    }
  }
}
