/**
 * The BitBar menu: a fixed grammar of text lines rendered from the zone list.
 * Each `Print...` method emits its lines in order, as the program prints
 * them, and returns what it emitted; each is proved equal to the function
 * that states its output declaratively. `path` stands for the program's own
 * location, which the program keeps in a module-level global.
 */
module BitbarOutput {
  import opened Text
  import opened Topology

  /** A favourite radio station as the controller lists it. */
  datatype Station = Station(title: string, uri: string)

  /** A Sonos playlist: its title and the items browsing it yields. */
  datatype Playlist = Playlist(title: string, items: seq<string>)

  /** The household's music library: Sonos playlists and radio favourites. */
  datatype Library = Library(playlists: seq<Playlist>, stations: seq<Station>)

  /** The checkmark printed before the selected volume bucket. */
  const Checkmark: string := "✓"

  const Header: seq<string> := ["🔊Sonos", "---"]

  function Quote(x: string): string {
    "\"" + x + "\""
  }

  // ---------------------------------------------------------------------------
  // Commands: `bash=<path> param1=-i param2=<ip> param3=... terminal=false refresh=true`

  /** The `paramN=<value>` tokens for the action parameters, numbered from `first`. */
  function ParamTokens(params: seq<string>, first: nat): (ts: seq<string>)
    ensures |ts| == |params|
  {
    seq(|params|, j requires 0 <= j < |params| => "param" + NatToString(first + j) + "=" + params[j])
  }

  /**
   * The key=value tokens BitBar reads from a command, in slot order: the
   * script, the fixed `-i` and the speaker address in slots 1 and 2, the
   * action parameters from slot 3 on, and the two display flags.
   */
  function CommandTokens(path: string, ip: string, params: seq<string>): seq<string> {
    FixedTokens(path, ip) + ParamTokens(params, 3) + ["terminal=false", "refresh=true"]
  }

  /** The command text: its tokens separated by single spaces. */
  function Command(path: string, ip: string, params: seq<string>): string {
    Join(CommandTokens(path, ip, params), ' ')
  }

  /**
   * `create_command`: grows the command text one parameter at a time with a
   * running slot counter starting at 3. The program substitutes the path and
   * address into the template last; with brace-free parameters that is the
   * same as writing them first.
   */
  method CreateCommand(path: string, ip: string, params: seq<string>) returns (cmd: string)
    ensures cmd == Command(path, ip, params)
  {
    cmd := "bash=" + path + " param1=-i param2=" + ip;
    FixedSlots(path, ip);
    var i := 3;
    for k := 0 to |params|
      invariant i == k + 3
      invariant cmd == Join(FixedTokens(path, ip) + ParamTokens(params[..k], 3), ' ')
    {
      ParamSlotStep(FixedTokens(path, ip), params, k);
      cmd := cmd + " param" + NatToString(i) + "=" + params[k];
      i := i + 1;
    }
    assert params[..|params|] == params;
    TrailingSlots(FixedTokens(path, ip) + ParamTokens(params, 3));
    cmd := cmd + " terminal=false refresh=true";
  }

  function FixedTokens(path: string, ip: string): seq<string> {
    ["bash=" + path, "param1=-i", "param2=" + ip]
  }

  lemma FixedSlots(path: string, ip: string)
    ensures Join(FixedTokens(path, ip) + ParamTokens([], 3), ' ')
      == "bash=" + path + " param1=-i param2=" + ip
  {
    var fixed := FixedTokens(path, ip);
    assert fixed + ParamTokens([], 3) == fixed;
    assert fixed[1..] == ["param1=-i", "param2=" + ip];
    assert fixed[1..][1..] == ["param2=" + ip];
    assert Join(fixed[1..], ' ') == "param1=-i" + " " + "param2=" + ip;
  }

  lemma ParamSlotStep(fixed: seq<string>, params: seq<string>, k: nat)
    requires |fixed| >= 1 && k < |params|
    ensures Join(fixed + ParamTokens(params[..k + 1], 3), ' ')
      == Join(fixed + ParamTokens(params[..k], 3), ' ') + " param" + NatToString(k + 3) + "=" + params[k]
  {
    var token := "param" + NatToString(k + 3) + "=" + params[k];
    assert ParamTokens(params[..k + 1], 3) == ParamTokens(params[..k], 3) + [token];
    assert fixed + ParamTokens(params[..k + 1], 3) == fixed + ParamTokens(params[..k], 3) + [token];
    JoinSnoc(fixed + ParamTokens(params[..k], 3), token, ' ');
  }

  lemma TrailingSlots(body: seq<string>)
    requires |body| >= 1
    ensures Join(body + ["terminal=false", "refresh=true"], ' ')
      == Join(body, ' ') + " terminal=false refresh=true"
  {
    var b1 := body + ["terminal=false"];
    JoinSnoc(body, "terminal=false", ' ');
    JoinSnoc(b1, "refresh=true", ' ');
    assert b1 + ["refresh=true"] == body + ["terminal=false", "refresh=true"];
    TrailingText(Join(body, ' '));
  }

  lemma TrailingText(j: string)
    ensures j + [' '] + "terminal=false" + [' '] + "refresh=true" == j + " terminal=false refresh=true"
  {
    assert " terminal=false refresh=true" == " " + "terminal=false" + " " + "refresh=true";
  }

  predicate NoSpace(xs: seq<string>) {
    forall k :: 0 <= k < |xs| ==> ' ' !in xs[k]
  }

  /**
   * BitBar splits an action line's command on spaces: when the path, the
   * address and the parameters hold no space, it reads back exactly the
   * tokens, so the address is always in slot 2 and the `j`-th parameter in
   * slot `j + 3`.
   */
  lemma CommandSlots(path: string, ip: string, params: seq<string>)
    requires ' ' !in path && ' ' !in ip && NoSpace(params)
    ensures Split(Command(path, ip, params), ' ') == CommandTokens(path, ip, params)
    ensures CommandTokens(path, ip, params)[2] == "param2=" + ip
    ensures forall j :: 0 <= j < |params| ==>
      CommandTokens(path, ip, params)[3 + j] == "param" + NatToString(3 + j) + "=" + params[j]
  {
    var ts := CommandTokens(path, ip, params);
    forall k | 0 <= k < |ts| ensures ' ' !in ts[k] {
      if 3 <= k < 3 + |params| {
        var n := NatToString(3 + (k - 3));
        assert ts[k] == "param" + n + "=" + params[k - 3];
        assert ' ' !in n by {
          assert forall i :: 0 <= i < |n| ==> '0' <= n[i] <= '9';
        }
      }
    }
    SplitJoin(ts, ' ');
  }

  // ---------------------------------------------------------------------------
  // The volume ladder

  /** The selection test of the ladder, exactly as the program writes it. */
  predicate Selected(volume: int, bucket: int) {
    (bucket - 1) * 10 < volume && bucket * 10 >= volume
  }

  /**
   * For a volume in 0..100 exactly one bucket of 0..10 is selected: the
   * volume divided by ten, rounded up. A volume of 0 selects bucket 0.
   */
  lemma SelectedBucket(volume: int, bucket: int)
    requires 0 <= volume <= 100 && 0 <= bucket <= 10
    ensures 0 <= (volume + 9) / 10 <= 10
    ensures Selected(volume, bucket) <==> bucket == (volume + 9) / 10
  {
    var c := (volume + 9) / 10;
    assert 10 * c <= volume + 9 < 10 * c + 10;
  }

  function VolumeLine(path: string, sp: Speaker, indent: string, bucket: nat): string {
    if Selected(sp.volume, bucket) then
      indent + "--" + Checkmark + NatToString(bucket)
    else
      indent + "--" + NatToString(bucket) + " | "
        + Command(path, sp.ip, ["--vol", NatToString(bucket * 10)])
  }

  /** The ladder: one line per bucket 0..10. */
  function VolumeControls(path: string, sp: Speaker, indent: string): (lines: seq<string>)
    ensures |lines| == 11
  {
    seq(11, b requires 0 <= b < 11 => VolumeLine(path, sp, indent, b))
  }

  /** `print_volume_controls`. */
  method PrintVolumeControls(path: string, sp: Speaker, indent: string) returns (lines: seq<string>)
    ensures lines == VolumeControls(path, sp, indent)
  {
    lines := [];
    for vol := 0 to 11
      invariant |lines| == vol
      invariant forall j :: 0 <= j < vol ==> lines[j] == VolumeLine(path, sp, indent, j)
    {
      if (vol - 1) * 10 < sp.volume && vol * 10 >= sp.volume {
        lines := lines + [indent + "--" + Checkmark + NatToString(vol)];
      } else {
        var cmd := CreateCommand(path, sp.ip, ["--vol", NatToString(vol * 10)]);
        lines := lines + [indent + "--" + NatToString(vol) + " | " + cmd];
      }
    }
  }

  /**
   * For a speaker volume in 0..100 the ladder has eleven lines; the checkmark
   * (right after the indent and `--`) is on the line of bucket
   * ceil(volume / 10) and on no other, and every other line sets the volume
   * to ten times its bucket.
   */
  lemma LadderMarksOneBucket(path: string, sp: Speaker, indent: string)
    requires 0 <= sp.volume <= 100
    ensures var lines := VolumeControls(path, sp, indent);
      forall b :: 0 <= b < 11 ==>
        && |indent| + 2 < |lines[b]|
        && (lines[b][|indent| + 2] == '✓' <==> b == (sp.volume + 9) / 10)
        && (b != (sp.volume + 9) / 10 ==>
              lines[b] == indent + "--" + NatToString(b) + " | "
                + Command(path, sp.ip, ["--vol", NatToString(b * 10)]))
  {
    var lines := VolumeControls(path, sp, indent);
    forall b | 0 <= b < 11
      ensures |indent| + 2 < |lines[b]|
      ensures lines[b][|indent| + 2] == '✓' <==> b == (sp.volume + 9) / 10
    {
      SelectedBucket(sp.volume, b);
      var n := NatToString(b);
      if Selected(sp.volume, b) {
        assert lines[b] == indent + "--" + Checkmark + n;
      } else {
        var rest := " | " + Command(path, sp.ip, ["--vol", NatToString(b * 10)]);
        assert lines[b] == indent + "--" + n + rest;
        assert lines[b][|indent| + 2] == n[0];
      }
    }
    forall b | 0 <= b < 11 && b != (sp.volume + 9) / 10
      ensures lines[b] == indent + "--" + NatToString(b) + " | "
        + Command(path, sp.ip, ["--vol", NatToString(b * 10)])
    {
      SelectedBucket(sp.volume, b);
    }
  }

  // ---------------------------------------------------------------------------
  // Top-level transport controls

  function ToggleLines(path: string, sp: Speaker, indent: string): seq<string> {
    if sp.transport == "PLAYING" then
      [ indent + "├ Pause | " + Command(path, sp.ip, ["pause", "-g"]),
        indent + "├ Next | " + Command(path, sp.ip, ["next", "-g"]) ]
    else
      [ indent + "├ Play | " + Command(path, sp.ip, ["play", "-g"]) ]
  }

  function TopLevelControls(path: string, sp: Speaker, indent: string): seq<string> {
    ToggleLines(path, sp, indent) + [indent + "└ Volume | "] + VolumeControls(path, sp, indent)
  }

  /** `print_top_level_controls`. */
  method PrintTopLevelControls(path: string, sp: Speaker, indent: string) returns (lines: seq<string>)
    ensures lines == TopLevelControls(path, sp, indent)
  {
    var playing := sp.transport;
    if playing == "PLAYING" {
      var pause := CreateCommand(path, sp.ip, ["pause", "-g"]);
      var next := CreateCommand(path, sp.ip, ["next", "-g"]);
      lines := [indent + "├ Pause | " + pause, indent + "├ Next | " + next];
    } else {
      var play := CreateCommand(path, sp.ip, ["play", "-g"]);
      lines := [indent + "├ Play | " + play];
    }
    lines := lines + [indent + "└ Volume | "];
    var ladder := PrintVolumeControls(path, sp, indent);
    lines := lines + ladder;
  }

  predicate StartsWith(line: string, prefix: string) {
    |prefix| <= |line| && line[..|prefix|] == prefix
  }

  /**
   * The transport toggle: exactly "PLAYING" gives a Pause and a Next control
   * and no Play control; any other state gives a Play control and neither
   * Pause nor Next. The Volume header and the eleven-line ladder follow.
   */
  lemma TransportToggle(path: string, sp: Speaker, indent: string)
    ensures var lines := TopLevelControls(path, sp, indent);
      var toggles := if sp.transport == "PLAYING" then 2 else 1;
      && |lines| == toggles + 12
      && lines[toggles] == indent + "└ Volume | "
      && lines[toggles + 1..] == VolumeControls(path, sp, indent)
      && (sp.transport == "PLAYING" ==>
            StartsWith(lines[0], indent + "├ Pause") && StartsWith(lines[1], indent + "├ Next")
            && forall k :: 0 <= k < |lines| ==> !StartsWith(lines[k], indent + "├ Play"))
      && (sp.transport != "PLAYING" ==>
            StartsWith(lines[0], indent + "├ Play")
            && forall k :: 0 <= k < |lines| ==>
                 !StartsWith(lines[k], indent + "├ Pause") && !StartsWith(lines[k], indent + "├ Next"))
  {
    var lines := TopLevelControls(path, sp, indent);
    var toggles := ToggleLines(path, sp, indent);
    var ladder := VolumeControls(path, sp, indent);
    assert lines == toggles + [indent + "└ Volume | "] + ladder;
    LadderLinesStart(path, sp, indent);
    var labels := ["├ Play", "├ Pause", "├ Next"];
    forall k, i | |toggles| <= k < |lines| && 0 <= i < 3
      ensures !StartsWith(lines[k], indent + labels[i])
    {
      if k == |toggles| {
        DiffersAt(lines[k], indent, labels[i], 0);
      } else {
        assert lines[k] == ladder[k - |toggles| - 1];
        DiffersAt(lines[k], indent, labels[i], 0);
      }
    }
    if sp.transport == "PLAYING" {
      assert StartsWith(lines[0], indent + "├ Pause") by {
        assert lines[0] == indent + "├ Pause" + " | " + Command(path, sp.ip, ["pause", "-g"]);
      }
      assert StartsWith(lines[1], indent + "├ Next") by {
        assert lines[1] == indent + "├ Next" + " | " + Command(path, sp.ip, ["next", "-g"]);
      }
      DiffersAt(lines[0], indent, "├ Play", 3);
      DiffersAt(lines[1], indent, "├ Play", 2);
      assert labels[0] == "├ Play";
    } else {
      assert StartsWith(lines[0], indent + "├ Play") by {
        assert lines[0] == indent + "├ Play" + " | " + Command(path, sp.ip, ["play", "-g"]);
      }
      DiffersAt(lines[0], indent, "├ Pause", 3);
      DiffersAt(lines[0], indent, "├ Next", 2);
      assert labels[1] == "├ Pause" && labels[2] == "├ Next";
    }
  }

  /** Every ladder line continues the indent with `-`. */
  lemma LadderLinesStart(path: string, sp: Speaker, indent: string)
    ensures forall b :: 0 <= b < 11 ==>
      |indent| < |VolumeControls(path, sp, indent)[b]|
      && VolumeControls(path, sp, indent)[b][|indent|] == '-'
  {
    forall b | 0 <= b < 11
      ensures |indent| < |VolumeControls(path, sp, indent)[b]|
      ensures VolumeControls(path, sp, indent)[b][|indent|] == '-'
    {
      var line := VolumeControls(path, sp, indent)[b];
      if Selected(sp.volume, b) {
        assert line == indent + ("--" + Checkmark + NatToString(b));
      } else {
        assert line == indent + ("--" + NatToString(b) + " | "
          + Command(path, sp.ip, ["--vol", NatToString(b * 10)]));
      }
    }
  }

  /** A line that differs from `indent + name` at one position after the indent does not start with it. */
  lemma DiffersAt(line: string, indent: string, name: string, i: nat)
    requires i < |name| && |indent| + i < |line|
    requires line[|indent| + i] != name[i]
    ensures !StartsWith(line, indent + name)
  {
  }

  // ---------------------------------------------------------------------------
  // Music library controls

  function PlaylistLines(path: string, sp: Speaker, indent: string, playlists: seq<Playlist>): seq<string> {
    seq(|playlists|, k requires 0 <= k < |playlists| =>
      indent + "--" + playlists[k].title + " | " + Command(path, sp.ip, ["-gl", Quote(playlists[k].title)]))
  }

  function StationLines(path: string, sp: Speaker, indent: string, stations: seq<Station>): seq<string> {
    seq(|stations|, k requires 0 <= k < |stations| =>
      indent + "--" + stations[k].title + " | " + Command(path, sp.ip, ["-gr", Quote(stations[k].uri)]))
  }

  function MusicControls(path: string, sp: Speaker, indent: string, lib: Library): seq<string> {
    [indent + "Playlists"] + PlaylistLines(path, sp, indent, lib.playlists)
      + [indent + "Radios"] + StationLines(path, sp, indent, lib.stations)
  }

  /** `print_music_controls`: one line per playlist, then one per radio station. */
  method PrintMusicControls(path: string, sp: Speaker, indent: string, lib: Library)
    returns (lines: seq<string>)
    ensures lines == MusicControls(path, sp, indent, lib)
  {
    var playlists: seq<string> := [];
    for k := 0 to |lib.playlists|
      invariant playlists == PlaylistLines(path, sp, indent, lib.playlists[..k])
    {
      var title := lib.playlists[k].title;
      var cmd := CreateCommand(path, sp.ip, ["-gl", Quote(title)]);
      playlists := playlists + [indent + "--" + title + " | " + cmd];
    }
    assert lib.playlists[..|lib.playlists|] == lib.playlists;
    var stations: seq<string> := [];
    for k := 0 to |lib.stations|
      invariant stations == StationLines(path, sp, indent, lib.stations[..k])
    {
      var station := lib.stations[k];
      var cmd := CreateCommand(path, sp.ip, ["-gr", Quote(station.uri)]);
      stations := stations + [indent + "--" + station.title + " | " + cmd];
    }
    assert lib.stations[..|lib.stations|] == lib.stations;
    lines := [indent + "Playlists"] + playlists + [indent + "Radios"] + stations;
  }

  /**
   * Playlist entries quote the title and use `-gl`, radio entries quote the
   * station URI and use `-gr`; both are the action parameters of the command.
   */
  lemma MusicEntries(path: string, sp: Speaker, indent: string, lib: Library)
    ensures var lines := MusicControls(path, sp, indent, lib);
      var n := |lib.playlists|;
      && |lines| == n + |lib.stations| + 2
      && lines[0] == indent + "Playlists" && lines[n + 1] == indent + "Radios"
      && (forall k :: 0 <= k < n ==>
            lines[1 + k] == indent + "--" + lib.playlists[k].title + " | "
              + Command(path, sp.ip, ["-gl", Quote(lib.playlists[k].title)]))
      && (forall k :: 0 <= k < |lib.stations| ==>
            lines[n + 2 + k] == indent + "--" + lib.stations[k].title + " | "
              + Command(path, sp.ip, ["-gr", Quote(lib.stations[k].uri)]))
  {
  }

  // ---------------------------------------------------------------------------
  // Per-player controls: join targets and unjoin

  function JoinLine(path: string, s: seq<Speaker>, p: nat, q: nat, indent: string): string
    requires p < |s| && q < |s|
  {
    indent + "--" + s[q].name + " | " + Command(path, s[p].ip, ["--ipjoin", s[q].ip])
  }

  /** The join entries for the first `n` speakers, skipping the player itself. */
  function JoinLinesUpTo(path: string, s: seq<Speaker>, p: nat, indent: string, n: nat): seq<string>
    requires p < |s| && n <= |s|
  {
    if n == 0 then
      []
    else
      JoinLinesUpTo(path, s, p, indent, n - 1)
        + (if n - 1 != p then [JoinLine(path, s, p, n - 1, indent)] else [])
  }

  function PlayerControls(path: string, s: seq<Speaker>, p: nat, indent: string): seq<string>
    requires p < |s|
  {
    [indent + "Join"] + JoinLinesUpTo(path, s, p, indent, |s|)
      + [indent + "Unjoin | " + Command(path, s[p].ip, ["--unjoin"])]
  }

  /** `print_player_controls`. */
  method PrintPlayerControls(path: string, s: seq<Speaker>, p: nat, indent: string)
    returns (lines: seq<string>)
    requires p < |s|
    ensures lines == PlayerControls(path, s, p, indent)
  {
    lines := [indent + "Join"];
    for q := 0 to |s|
      invariant lines == [indent + "Join"] + JoinLinesUpTo(path, s, p, indent, q)
    {
      if q != p {
        var cmd := CreateCommand(path, s[p].ip, ["--ipjoin", s[q].ip]);
        lines := lines + [indent + "--" + s[q].name + " | " + cmd];
      }
    }
    var unjoin := CreateCommand(path, s[p].ip, ["--unjoin"]);
    lines := lines + [indent + "Unjoin | " + unjoin];
  }

  /**
   * The join entries list every speaker of the household except the player
   * itself, in household order: entry `k` is for speaker `k` before the
   * player's position and for speaker `k + 1` from it on.
   */
  lemma {:induction false} JoinTargets(path: string, s: seq<Speaker>, p: nat, indent: string, n: nat)
    requires p < |s| && n <= |s|
    ensures var lines := JoinLinesUpTo(path, s, p, indent, n);
      && |lines| == (if p < n then n - 1 else n)
      && forall k :: 0 <= k < |lines| ==>
           lines[k] == JoinLine(path, s, p, if k < p then k else k + 1, indent)
    decreases n
  {
    if n > 0 {
      JoinTargets(path, s, p, indent, n - 1);
    }
  }

  /** Each player's controls end with an Unjoin control, whatever the household. */
  lemma PlayerControlsShape(path: string, s: seq<Speaker>, p: nat, indent: string)
    requires p < |s|
    ensures var lines := PlayerControls(path, s, p, indent);
      && |lines| == |s| + 1
      && lines[0] == indent + "Join"
      && lines[|s|] == indent + "Unjoin | " + Command(path, s[p].ip, ["--unjoin"])
      && forall q :: 0 <= q < |s| && q != p ==>
           lines[if q < p then q + 1 else q] == JoinLine(path, s, p, q, indent)
  {
    JoinTargets(path, s, p, indent, |s|);
  }

  // ---------------------------------------------------------------------------
  // Zones

  function SinglePlayer(path: string, s: seq<Speaker>, lib: Library, p: nat): seq<string>
    requires p < |s|
  {
    MusicControls(path, s[p], "--", lib) + PlayerControls(path, s, p, "--")
      + TopLevelControls(path, s[p], "")
  }

  function MemberSection(path: string, s: seq<Speaker>, q: nat): seq<string>
    requires q < |s|
  {
    ["➤ " + s[q].name] + PlayerControls(path, s, q, "--") + ["--Volume"]
      + VolumeControls(path, s[q], "--")
  }

  function MemberSections(path: string, s: seq<Speaker>, ms: seq<nat>): seq<string>
    requires InRange(ms, |s|)
  {
    if ms == [] then []
    else MemberSections(path, s, ms[..|ms| - 1]) + MemberSection(path, s, ms[|ms| - 1])
  }

  lemma MemberSectionsSnoc(path: string, s: seq<Speaker>, ms: seq<nat>, k: nat)
    requires InRange(ms, |s|) && k < |ms|
    ensures MemberSections(path, s, ms[..k + 1])
      == MemberSections(path, s, ms[..k]) + (["➤ " + s[ms[k]].name] + PlayerControls(path, s, ms[k], "--")
           + ["--Volume"] + VolumeControls(path, s[ms[k]], "--"))
  {
    assert ms[..k + 1][..k] == ms[..k];
  }

  function GroupBlock(path: string, s: seq<Speaker>, lib: Library, m: nat): seq<string>
    requires m < |s|
  {
    MusicControls(path, s[m], "--", lib) + TopLevelControls(path, s[m], "")
      + MemberSections(path, s, Members(s, m))
  }

  /** The three lines that open a zone's block. */
  function ZoneHeader(s: seq<Speaker>, z: Zone): seq<string>
    requires z.master < |s|
  {
    ["---", "Zone:", KindLabel(z.kind) + ": " + s[z.master].name]
  }

  function ZoneBlock(path: string, s: seq<Speaker>, lib: Library, z: Zone): seq<string>
    requires z.master < |s|
  {
    ZoneHeader(s, z)
      + (if z.kind == P then SinglePlayer(path, s, lib, z.master) else GroupBlock(path, s, lib, z.master))
  }

  predicate MastersInRange(zones: seq<Zone>, n: nat) {
    forall k :: 0 <= k < |zones| ==> zones[k].master < n
  }

  /** The block of each zone, in zone order. */
  function Blocks(path: string, s: seq<Speaker>, lib: Library, zones: seq<Zone>): (bs: seq<seq<string>>)
    requires MastersInRange(zones, |s|)
    ensures |bs| == |zones|
  {
    seq(|zones|, i requires 0 <= i < |zones| => ZoneBlock(path, s, lib, zones[i]))
  }

  function ZoneBlocks(path: string, s: seq<Speaker>, lib: Library, zones: seq<Zone>): seq<string>
    requires MastersInRange(zones, |s|)
  {
    Concat(Blocks(path, s, lib, zones))
  }

  lemma ZoneBlocksSnoc(path: string, s: seq<Speaker>, lib: Library, zones: seq<Zone>, k: nat)
    requires MastersInRange(zones, |s|) && k < |zones|
    ensures ZoneBlocks(path, s, lib, zones[..k + 1])
      == ZoneBlocks(path, s, lib, zones[..k]) + ZoneBlock(path, s, lib, zones[k])
  {
    var bs := Blocks(path, s, lib, zones[..k + 1]);
    assert bs[..k] == Blocks(path, s, lib, zones[..k]);
  }

  /** The whole menu: the title, then each zone's block in zone order. */
  function Menu(path: string, s: seq<Speaker>, lib: Library, zones: seq<Zone>): seq<string>
    requires MastersInRange(zones, |s|)
  {
    Header + ZoneBlocks(path, s, lib, zones)
  }

  /**
   * The menu opens with the title and `---`; each zone's block starts, at the
   * position right after the blocks of the zones before it, with `---`,
   * `Zone:` and `<kind>: <master name>`.
   */
  lemma MenuZoneHeaders(path: string, s: seq<Speaker>, lib: Library, zones: seq<Zone>, k: nat)
    requires MastersInRange(zones, |s|) && k < |zones|
    ensures var menu := Menu(path, s, lib, zones);
      var at := 2 + |ZoneBlocks(path, s, lib, zones[..k])|;
      && menu[..2] == ["🔊Sonos", "---"]
      && at + 3 <= |menu|
      && menu[at..at + 3] == ["---", "Zone:", KindLabel(zones[k].kind) + ": " + s[zones[k].master].name]
  {
    ZoneHeaderAt(path, s, lib, zones, k);
  }

  lemma ZoneHeaderAt(path: string, s: seq<Speaker>, lib: Library, zones: seq<Zone>, k: nat)
    requires MastersInRange(zones, |s|) && k < |zones|
    ensures var blocks := ZoneBlocks(path, s, lib, zones);
      var at := |ZoneBlocks(path, s, lib, zones[..k])|;
      && at + 3 <= |blocks|
      && blocks[at..at + 3] == ZoneHeader(s, zones[k])
  {
    var bs := Blocks(path, s, lib, zones);
    var head := ZoneHeader(s, zones[k]);
    assert bs[..k] == Blocks(path, s, lib, zones[..k]);
    assert |head| <= |bs[k]| && bs[k][..|head|] == head by {
      assert bs[k] == ZoneBlock(path, s, lib, zones[k]);
      ZoneBlockHead(path, s, lib, zones[k]);
    }
    ConcatBlockHead(bs, k, head);
  }

  /** A block that opens with `head` puts `head` right after the blocks before it. */
  lemma ConcatBlockHead(bs: seq<seq<string>>, k: nat, head: seq<string>)
    requires k < |bs| && |head| <= |bs[k]| && bs[k][..|head|] == head
    ensures var at := |Concat(bs[..k])|;
      at + |head| <= |Concat(bs)| && Concat(bs)[at..at + |head|] == head
  {
    ConcatAt(bs, k);
    var at := |Concat(bs[..k])|;
    assert Concat(bs)[at..at + |head|] == Concat(bs)[at..at + |bs[k]|][..|head|];
  }

  lemma ZoneBlockHead(path: string, s: seq<Speaker>, lib: Library, z: Zone)
    requires z.master < |s|
    ensures var block := ZoneBlock(path, s, lib, z);
      3 <= |block| && block[..3] == ZoneHeader(s, z)
  {
  }

  /** `print_single_player`: music, player and top-level controls, in that order. */
  method PrintSinglePlayer(path: string, s: seq<Speaker>, lib: Library, p: nat)
    returns (lines: seq<string>)
    requires p < |s|
    ensures lines == SinglePlayer(path, s, lib, p)
  {
    var music := PrintMusicControls(path, s[p], "--", lib);
    var player := PrintPlayerControls(path, s, p, "--");
    var top := PrintTopLevelControls(path, s[p], "");
    lines := music + player + top;
  }

  /**
   * `print_group`: the coordinator's music and top-level controls, then for
   * each member in order its name, its player controls and its own ladder.
   */
  method PrintGroup(path: string, s: seq<Speaker>, lib: Library, m: nat)
    returns (lines: seq<string>)
    requires m < |s|
    ensures lines == GroupBlock(path, s, lib, m)
  {
    var music := PrintMusicControls(path, s[m], "--", lib);
    var top := PrintTopLevelControls(path, s[m], "");
    var members := Members(s, m);
    var sections: seq<string> := [];
    assert members[..0] == [];
    for k := 0 to |members|
      invariant sections == MemberSections(path, s, members[..k])
    {
      var q := members[k];
      var player := PrintPlayerControls(path, s, q, "--");
      var ladder := PrintVolumeControls(path, s[q], "--");
      MemberSectionsSnoc(path, s, members, k);
      sections := sections + (["➤ " + s[q].name] + player + ["--Volume"] + ladder);
    }
    assert members[..|members|] == members;
    lines := music + top + sections;
  }

  /** `print_zone`: the zone header, then single-player or group controls. */
  method PrintZone(path: string, s: seq<Speaker>, lib: Library, z: Zone)
    returns (lines: seq<string>)
    requires z.master < |s|
    ensures lines == ZoneBlock(path, s, lib, z)
  {
    lines := ["---", "Zone:", KindLabel(z.kind) + ": " + s[z.master].name];
    var body;
    if z.kind == P {
      body := PrintSinglePlayer(path, s, lib, z.master);
    } else {
      body := PrintGroup(path, s, lib, z.master);
    }
    lines := lines + body;
  }

  /** `output_for_bitbar`: the title, then every zone in order. */
  method OutputForBitbar(path: string, s: seq<Speaker>, lib: Library, zones: seq<Zone>)
    returns (lines: seq<string>)
    requires MastersInRange(zones, |s|)
    ensures lines == Menu(path, s, lib, zones)
  {
    var body: seq<string> := [];
    assert zones[..0] == [];
    for k := 0 to |zones|
      invariant MastersInRange(zones[..k], |s|)
      invariant body == ZoneBlocks(path, s, lib, zones[..k])
    {
      var block := PrintZone(path, s, lib, zones[k]);
      ZoneBlocksSnoc(path, s, lib, zones, k);
      body := body + block;
    }
    assert zones[..|zones|] == zones;
    lines := ["🔊Sonos", "---"] + body;
  }
}
