# SonosBar in Dafny

SonosBar is a small command-line remote control for a Sonos household, built
to feed the BitBar menu-bar tool. A run does three things:

- it reads the command line;
- it decides which speaker is meant and which single action to take;
- it either renders the BitBar menu for every zone of the household, or
  sends one action (playlist, radio, volume, join, unjoin, play/pause/…)
  to the speaker through the controller library.

This project models the deterministic part of that program and proves what
it promises. The household is a snapshot of speakers: name, address,
coordinator, volume, transport state and play mode. The controller library's
answers are parameters of the model.

| file | module | what it models |
|---|---|---|
| `text.dfy` | `Wrappers`, `Text` | `Option`; Python's `str(n)`, `str.split`, `str.join` and ASCII `lower()`, with their round-trip lemmas |
| `cli_arguments.dfy` | `CliArguments` | the parsed arguments, the `--vol` and action choices, `parse_ip` with the host address as a parameter, and the completion of `--ip`/`--ipjoin` |
| `topology.dfy` | `Topology` | speakers, groups, zones; `parse_zone_groups`; how the household reacts to `unjoin` and `join`, and the group-mode fan-out of `join` |
| `bitbar_output.dfy` | `BitbarOutput` | every printing function of the menu, as methods that emit lines in loops, each proved equal to a declarative description of the menu |
| `dispatch.dfy` | `Dispatch` | `define_player`, `get_player_by_name`, `find_random_player` and `main`'s priority chain, as a function returning a plan |
| `controller.dfy` | `Controller` | class `Household`: the speakers it changes in place, plus one ordered trace of printed lines and sent requests; every action, `join`, `print_bitbar_controls` and `main` |

Speakers are identified by their position in discovery order. A group is
identified by its coordinator. Every set the controller library returns
(`all_groups`, `all_zones`, `group.members`, discovery) is taken in that
order.

## Model

| member | source | states |
|---|---|---|
| Text.JoinSplit | src/cli_arguments.py:47-50 | joining the pieces of `s.split(sep)` with `sep` gives back `s` |
| Text.SplitJoin | src/cli_arguments.py:47-50 | splitting a `sep`-join of separator-free pieces gives back those pieces |
| Text.ParseNatToString | src/bitbar_output.py:46 | the decimal rendering of a slot or volume number reads back as that number |
| CliArguments.ParseIpParts | src/cli_arguments.py:47-50 | the completed address splits into the host prefix the slice keeps, followed by all of the user's parts in order |
| CliArguments.ParseIpCompletes | src/cli_arguments.py:47-50 | with a 4-octet host and k ≤ 4 user parts, the result has 4 parts: the first 4−k host octets, then the user's parts |
| CliArguments.ParseIpFullAddress | src/cli_arguments.py:49-50 | a 4-part user address comes back unchanged, whatever the host |
| CliArguments.ParseIpLong | src/cli_arguments.py:49 | with k > 4 user parts, the host keeps 8−k octets (none once k ≥ 8) before the user's parts |
| CliArguments.ParseIpKeepsUserParts | src/cli_arguments.py:49-50 | the user's parts are always a suffix of the completed address |
| CliArguments.CompleteAddresses | src/cli_arguments.py:138-142 | only `--ip` and `--ipjoin` are completed, each only when non-empty; acceptance of the arguments is unchanged |
| Topology.AllGroupsPartition | src/main.py:70-74 | the groups have distinct coordinators; a speaker is a member of a group exactly when it points at that group's coordinator; every speaker's coordinator heads a group |
| Topology.Leave | src/main.py:93 | after `unjoin` the speaker is alone in its group; its former co-members stay together under one of themselves; other groups and all non-membership fields are unchanged |
| Topology.JoinGroup | src/main.py:176-178 | after `join(c)` the speaker is in `c`'s group and `c` still coordinates it; members of `c`'s group stay; speakers of other groups are untouched |
| Topology.ParseZoneGroups | src/main.py:66-75 | one zone per group, in group order; the master is the coordinator; the kind is `G` exactly when the group has more than one member |
| Topology.HouseholdZones | src/main.py:69-75 | for the household's own groups, the masters are distinct coordinators and a zone is `P` exactly when its master is alone |
| Topology.JoinAll | src/main.py:174-176 | the fan-out joins each listed speaker, in order, to the coordinator that the target has at that moment; the household stays well formed |
| Topology.GatheringStep | src/main.py:175-176 | one source member's join moves it into the target's group and keeps the rest of the household as described by `Gathering` |
| Topology.JoinAllGathers | src/main.py:174-176 | after the fan-out every member of the source group is in the target's group; the target's coordinator stays in charge; speakers of neither group are untouched |
| BitbarOutput.CreateCommand | src/bitbar_output.py:41-49 | the command text: `bash=<path> param1=-i param2=<ip>`, then `param<i>=<p>` for each parameter with i from 3, then `terminal=false refresh=true` |
| BitbarOutput.CommandSlots | src/bitbar_output.py:41-49 | with space-free values, splitting the command on spaces gives back its tokens; the address is in slot 2 and parameter j in slot j+3 |
| BitbarOutput.SelectedBucket | src/bitbar_output.py:96-97 | for a volume in 0..100 the selection test holds for exactly one bucket of 0..10, ⌈volume/10⌉; volume 0 selects bucket 0 |
| BitbarOutput.PrintVolumeControls | src/bitbar_output.py:94-103 | the ladder: eleven lines, bucket by bucket, checkmarked or carrying a `--vol` command |
| BitbarOutput.LadderMarksOneBucket | src/bitbar_output.py:96-103 | the checkmark is on bucket ⌈volume/10⌉ and no other; every other bucket b sets the volume to b·10 |
| BitbarOutput.PrintTopLevelControls | src/bitbar_output.py:78-92 | the toggle lines, the Volume header, then the ladder |
| BitbarOutput.TransportToggle | src/bitbar_output.py:81-92 | exactly `PLAYING` gives Pause then Next and no Play line; any other state gives Play and neither Pause nor Next; the Volume header and the 11-line ladder follow |
| BitbarOutput.PrintMusicControls | src/bitbar_output.py:64-76 | a Playlists header and one line per playlist, then a Radios header and one line per station, in library order |
| BitbarOutput.MusicEntries | src/bitbar_output.py:66-76 | playlist entries quote the title and use `-gl`; radio entries quote the URI and use `-gr` |
| BitbarOutput.PrintPlayerControls | src/bitbar_output.py:51-62 | a Join header, one join line per other speaker, and an Unjoin line |
| BitbarOutput.JoinTargets | src/bitbar_output.py:55-59 | the join entries are every speaker except the player itself, in household order, each with `--ipjoin <its address>` |
| BitbarOutput.PlayerControlsShape | src/bitbar_output.py:51-62 | the controls have one line per speaker plus one: Join first, Unjoin last, and a join line for every other speaker |
| BitbarOutput.PrintSinglePlayer | src/bitbar_output.py:25-29 | music controls, player controls, then top-level controls |
| BitbarOutput.PrintGroup | src/bitbar_output.py:31-39 | the coordinator's music and top-level controls, then per member in order: `➤ <name>`, its player controls, `--Volume`, its ladder |
| BitbarOutput.PrintZone | src/bitbar_output.py:14-23 | `---`, `Zone:`, `<kind>: <master name>`, then single-player or group controls according to the kind |
| BitbarOutput.OutputForBitbar | src/bitbar_output.py:7-12 | the title lines, then each zone's block in zone order |
| BitbarOutput.MenuZoneHeaders | src/bitbar_output.py:9-19 | the menu opens with `🔊Sonos`, `---`; each zone's three header lines sit right after the blocks of the zones before it |
| Dispatch.Connect | src/main.py:44-45 | the speaker at an address is the first with that address; with no such speaker the result is an object nobody answers for |
| Dispatch.ByName | src/main.py:35-39 | the first speaker with the name, none when no speaker has it; an empty discovery fails |
| Dispatch.Coordinate | src/main.py:49-51 | a found speaker is replaced by its group's coordinator; an unreachable one fails |
| Dispatch.CoordinateIdempotent | src/main.py:194-196 | asking a coordinator for its coordinator again changes nothing |
| Dispatch.DefinePlayer | src/main.py:41-53 | the address is used when non-empty; a non-empty name overrides it; in group mode the result is a coordinator |
| Dispatch.FindRandomPlayer | src/main.py:55-64 | some speaker when discovery finds any, none otherwise |
| Dispatch.TransportFor | src/main.py:222-247 | the lower-cased positional action selects a transport action exactly when it is one of the six choices, and the action selected is the one whose name it is |
| Dispatch.ActionNameSelects | src/main.py:225-247 | each of `play`, `pause`, `next`, `previous`, `shuffle`, `normal` selects its own action: play, pause, next track, previous track, shuffle on, shuffle off |
| Dispatch.TransportForName | src/main.py:225-247 | an action name in any letter case selects the same action as the name itself |
| Dispatch.Decide | src/main.py:185-247 | a command runs only on a found or unreachable speaker (a coordinator in group mode), it is the one the priority chain picks, and a join target lies in the household |
| Dispatch.FirstRequestWins | src/main.py:198-247 | at most one command runs: the first requested in the order playlist, radio, volume, join, ipjoin, unjoin, action; nothing when none is requested |
| Dispatch.DecideCases | src/main.py:187-247 | a failed lookup crashes; no speaker or `--bitbar` shows the menu (for a random speaker when none was named); otherwise the first request runs or nothing happens |
| Dispatch.AcceptedActionRequested | src/cli_arguments.py:109-115 | an accepted positional action is already lower case and is always requested, last in priority |
| Controller.AcceptedVolumeMarked | src/cli_arguments.py:84-89 | an accepted volume lies in 0..100, so exactly one ladder bucket is selected for it |
| Controller.FindPlaylist | src/main.py:97-102 | the items of the first playlist with the title; none exactly when no playlist has it |
| Controller.Household.SongsFromPlaylist | src/main.py:97-102 | the loop returns the items of the first matching playlist, or none |
| Controller.Household.VerboseOutput | src/main.py:79-83 | prints `Group : <msg>` or `Player : <msg>` only when verbose |
| Controller.Household.InvalidCommand | src/main.py:180-183 | prints exactly `ERROR: <err>` and changes nothing else |
| Controller.Household.UnjoinPlayer | src/main.py:217-220 | the household becomes `Leave` of it, and one unjoin request is sent |
| Controller.Household.GroupCoordinate | src/main.py:85-95 | outside group mode the speaker first leaves its group (an unjoin request); in group mode nothing happens |
| Controller.Household.Transport | src/main.py:129-163 | the wrapper's step, the verbose line, then the one request of the action; shuffle and normal set only that speaker's play mode |
| Controller.Household.SetVolume | src/main.py:165-168 | not wrapped: no unjoin; only that speaker's volume changes |
| Controller.Household.PlayPlaylist | src/main.py:104-112 | the wrapper's step, then clear the queue, queue the playlist's items in order and play from position 0; an unknown title clears the queue and then fails |
| Controller.Household.PlayRadio | src/main.py:114-127 | the wrapper's step, then set the stream URI and play |
| Controller.Household.Join | src/main.py:170-178 | an unknown target prints `ERROR: Target to join is not known` and changes no membership; in group mode the whole source group moves to the target's group; otherwise only the source joins |
| Controller.Household.JoinMembers | src/main.py:174-176 | the fan-out loop equals `JoinAll` over the source group's members, sends one join per member, and gathers the source group into the target's group |
| Controller.Household.PrintBitbarControls | src/main.py:249-256 | with no speaker exactly the three lines `🔇 Sonos`, `---`, `No Sonos Zone present`; otherwise the menu of the household's zones; nothing changes |
| Controller.Household.Effect | src/main.py:104-178 | the household after any command is still well formed and has the same speakers |
| Controller.Household.OnlyUnjoinBreaksGroups | src/main.py:85-95 | in group mode only `--unjoin` sends an `unjoin`; outside it the unwrapped volume and join commands send none either |
| Controller.Household.GroupsKept | src/main.py:85-95 | in group mode, and for the volume in any mode, commands other than join and unjoin keep every speaker in its group |
| Controller.Household.WrappedActsAlone | src/main.py:85-95 | outside group mode a wrapped action sends `unjoin` first, and its speaker is then alone in its group |
| Controller.Household.JoinMovesSource | src/main.py:170-178 | a join to a known target puts the source in the target's group, whose coordinator and members stay; in group mode the whole source group follows with one `join` per member in order; other groups are untouched |
| Controller.Household.EffectFails | src/main.py:97-178 | a command fails exactly for an unknown playlist or a join target that cannot be asked for its group |
| Controller.Household.Execute | src/main.py:198-220 | the household, the printed lines and requests, and the failure are exactly the `Effect` of the one command given |
| Controller.Household.ExecuteUnreachable | src/main.py:198-220 | a speaker nobody answers for: nothing is sent, only the verbose line (and the error line of a join to an unknown target) is printed, and the run fails except for that join |
| Controller.Household.RunProgram | src/main.py:185-247 | a crash or an empty request changes nothing; the menu sends no request and changes no speaker, and prints exactly the no-zone lines or the household menu, or fails for an unreachable speaker; otherwise exactly the `Effect` of the first requested command on the speaker, or the lines an unreachable speaker lets through |

## Left out

- Discovery, `soco.SoCo(...)` and all speaker requests are foreign network calls. The household snapshot, the library of playlists and stations, and the transport state are inputs. Requests are recorded in an ordered trace instead of being sent.
- How a speaker system hands over coordination when a coordinator leaves a multi-member group is device behaviour that is not part of this model. `Topology.Leave` passes it to the remaining member found first.
- Discovery order and the order of `all_groups`, `all_zones` and `group.members` are not fixed by the program. The model uses household index order, so "a random player" is the first speaker.
- `Dispatch.Connect`: the controller library creates an object for any address. The model treats a known address as that speaker and an unknown one as `Unreachable`, whose first request fails.
- The radio stream's DIDL metadata (`MusicService`, `DidlItem`, `to_didl_string`) is opaque library data and is left out. Only the URI request and the play request are modelled.
- Python exceptions are modelled as a `raised` result and a `Crash` plan. Tracebacks are not modelled.
- The UDP socket that finds the host address is I/O, so the host address is a parameter of `CliArguments.ParseIp`.
- argparse mechanics, mutual exclusion and usage errors are library behaviour. Only the value constraints on `--vol` and the action are kept, as `CliArguments.Accepted`.
- The module globals `PATH_TO_SCRIPT`, `GROUP` and `ARGUMENTS.verbose` become the `path` parameter and the `group` and `verbose` constants of `Household`.
- The checkmark is the character `✓`. Its UTF-8 byte encoding in the printed line is not modelled.
- BitbarOutput.CreateCommand: the late `str.format` is modelled as writing the path and address first. These agree only when no parameter contains `{` or `}`.
- Controller.Household.SetVolume: the library clamps volumes to 0..100. This is not modelled, because the parser already accepts only 0..100.
- The play queue's contents are not kept as state. The model records the queue requests in order.
- `Controller.Household.Transport`: play, pause, next and previous do not update the speaker's transport state, which the device owns.
- Text.Lower: lower-casing covers ASCII letters only.
