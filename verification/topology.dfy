/**
 * The household snapshot the program works on: speakers identified by their
 * position in discovery order, each pointing at the coordinator of its group,
 * the groups and zones derived from them, and the two membership changes the
 * program asks the speaker system to make (unjoin and join).
 */
module Topology {

  /** One speaker as the program sees it through the controller library. */
  datatype Speaker = Speaker(
    name: string,
    ip: string,
    coordinator: nat,   // index of the coordinator of this speaker's group
    volume: int,
    transport: string,  // current transport state, e.g. "PLAYING"
    playMode: string)   // e.g. "NORMAL", "SHUFFLE_NOREPEAT"

  /** A group: its coordinator and its members, in discovery order. */
  datatype Group = Group(coordinator: nat, members: seq<nat>)

  /** `"G"` for a group of several speakers, `"P"` for a single player. */
  datatype Kind = G | P

  /** A zone of the menu: its kind and its master (the group's coordinator). */
  datatype Zone = Zone(kind: Kind, master: nat)

  function KindLabel(k: Kind): string {
    match k
    case G => "G"
    case P => "P"
  }

  /**
   * Every speaker points at a speaker of the household that coordinates
   * itself, so groups are the classes of speakers sharing a coordinator.
   */
  predicate Valid(s: seq<Speaker>) {
    forall i :: 0 <= i < |s| ==>
      s[i].coordinator < |s| && s[s[i].coordinator].coordinator == s[i].coordinator
  }

  predicate IsCoordinator(s: seq<Speaker>, c: nat) {
    c < |s| && s[c].coordinator == c
  }

  /** The speakers among the first `n` whose coordinator is `c`, in order. */
  function MembersUpTo(s: seq<Speaker>, c: nat, n: nat): (ms: seq<nat>)
    requires n <= |s|
    ensures forall k :: 0 <= k < |ms| ==> ms[k] < n && s[ms[k]].coordinator == c
    ensures forall q: nat :: q < n && s[q].coordinator == c ==> q in ms
    ensures Increasing(ms)
    decreases n
  {
    if n == 0 then []
    else MembersUpTo(s, c, n - 1) + (if s[n - 1].coordinator == c then [n - 1] else [])
  }

  /** `group.members` of the group coordinated by `c`. */
  function Members(s: seq<Speaker>, c: nat): seq<nat> {
    MembersUpTo(s, c, |s|)
  }

  /** The coordinators among the first `n` speakers, in order. */
  function CoordinatorsUpTo(s: seq<Speaker>, n: nat): (cs: seq<nat>)
    requires n <= |s|
    ensures forall k :: 0 <= k < |cs| ==> cs[k] < n && s[cs[k]].coordinator == cs[k]
    ensures forall c: nat :: c < n && s[c].coordinator == c ==> c in cs
    ensures Increasing(cs)
    decreases n
  {
    if n == 0 then []
    else CoordinatorsUpTo(s, n - 1) + (if s[n - 1].coordinator == n - 1 then [n - 1] else [])
  }

  predicate Increasing(xs: seq<nat>) {
    forall i, j :: 0 <= i < j < |xs| ==> xs[i] < xs[j]
  }

  /** `all_groups`: one group per coordinator, in discovery order. */
  function AllGroups(s: seq<Speaker>): seq<Group> {
    var cs := CoordinatorsUpTo(s, |s|);
    seq(|cs|, i requires 0 <= i < |cs| => Group(cs[i], Members(s, cs[i])))
  }

  /**
   * In a valid household the groups partition the speakers: groups have
   * distinct coordinators, a speaker is a member of a group exactly when it
   * points at that group's coordinator, and every speaker's coordinator heads
   * one of the groups.
   */
  lemma AllGroupsPartition(s: seq<Speaker>)
    requires Valid(s)
    ensures forall i :: 0 <= i < |AllGroups(s)| ==> IsCoordinator(s, AllGroups(s)[i].coordinator)
    ensures forall i, j :: 0 <= i < j < |AllGroups(s)| ==>
      AllGroups(s)[i].coordinator != AllGroups(s)[j].coordinator
    ensures forall i, p :: 0 <= i < |AllGroups(s)| && 0 <= p < |s| ==>
      (p in AllGroups(s)[i].members <==> s[p].coordinator == AllGroups(s)[i].coordinator)
    ensures forall p :: 0 <= p < |s| ==>
      exists i :: 0 <= i < |AllGroups(s)| && AllGroups(s)[i].coordinator == s[p].coordinator
  {
    AllGroupsMembers(s);
    var gs := AllGroups(s);
    var cs := CoordinatorsUpTo(s, |s|);
    forall p | 0 <= p < |s|
      ensures exists i :: 0 <= i < |gs| && gs[i].coordinator == s[p].coordinator
    {
      var c := s[p].coordinator;
      assert c in cs;
      var i :| 0 <= i < |cs| && cs[i] == c;
      assert gs[i].coordinator == c;
    }
  }

  /** Membership of each group is exactly pointing at its coordinator. */
  lemma AllGroupsMembers(s: seq<Speaker>)
    ensures forall i, p :: 0 <= i < |AllGroups(s)| && 0 <= p < |s| ==>
      (p in AllGroups(s)[i].members <==> s[p].coordinator == AllGroups(s)[i].coordinator)
  {
    var gs := AllGroups(s);
    var cs := CoordinatorsUpTo(s, |s|);
    forall i | 0 <= i < |gs|
      ensures forall p :: 0 <= p < |s| ==> (p in gs[i].members <==> s[p].coordinator == gs[i].coordinator)
    {
      assert gs[i] == Group(cs[i], Members(s, cs[i]));
      MembersExactly(s, cs[i]);
    }
  }

  /** A speaker is a member of the group of `c` exactly when it points at `c`. */
  lemma MembersExactly(s: seq<Speaker>, c: nat)
    ensures forall p :: 0 <= p < |s| ==> (p in Members(s, c) <==> s[p].coordinator == c)
  {
    var ms := Members(s, c);
    forall p | 0 <= p < |s| && p in ms ensures s[p].coordinator == c {
      var k :| 0 <= k < |ms| && ms[k] == p;
    }
  }

  /** The first member of an increasing `ms` other than `p`. */
  function OtherMember(ms: seq<nat>, p: nat): (h: nat)
    requires Increasing(ms) && |ms| >= 2
    ensures h in ms && h != p
  {
    if ms[0] != p then ms[0] else ms[1]
  }

  /**
   * The speaker system's reaction to `unjoin`: the speaker forms a group of
   * its own. If it coordinated a group with other members, those members
   * stay together under the first of them in discovery order.
   */
  function Leave(s: seq<Speaker>, p: nat): (t: seq<Speaker>)
    requires Valid(s) && p < |s|
    ensures |t| == |s| && Valid(t)
    ensures forall i :: 0 <= i < |s| ==> (t[i].coordinator == p <==> i == p)
    ensures forall i :: 0 <= i < |s| ==> t[i] == s[i].(coordinator := t[i].coordinator)
    ensures forall i :: 0 <= i < |s| && s[i].coordinator != s[p].coordinator ==> t[i] == s[i]
    ensures forall i, j ::
      (0 <= i < |s| && 0 <= j < |s| && i != p && j != p &&
       s[i].coordinator == s[p].coordinator && s[j].coordinator == s[p].coordinator) ==>
      t[i].coordinator == t[j].coordinator
    ensures forall i :: 0 <= i < |s| && i != p && s[i].coordinator == s[p].coordinator ==>
      s[t[i].coordinator].coordinator == s[p].coordinator
  {
    var ms := Members(s, p);
    if s[p].coordinator != p then
      s[p := s[p].(coordinator := p)]
    else if |ms| <= 1 then
      assert p in ms;
      assert ms == [p];
      s
    else
      HandOver(s, p, OtherMember(ms, p))
  }

  /** A coordinator leaves its group, whose other members move under `h`. */
  function HandOver(s: seq<Speaker>, p: nat, h: nat): (t: seq<Speaker>)
    requires Valid(s) && IsCoordinator(s, p) && h < |s| && h != p && s[h].coordinator == p
    ensures |t| == |s| && Valid(t)
    ensures t[p] == s[p] && forall i :: 0 <= i < |s| && i != p ==> t[i].coordinator != p
    ensures forall i :: 0 <= i < |s| ==> t[i] == s[i].(coordinator := t[i].coordinator)
    ensures forall i :: 0 <= i < |s| && s[i].coordinator != p ==> t[i] == s[i]
    ensures forall i :: 0 <= i < |s| && i != p && s[i].coordinator == p ==> t[i].coordinator == h
  {
    seq(|s|, i requires 0 <= i < |s| =>
      if i != p && s[i].coordinator == p then s[i].(coordinator := h) else s[i])
  }

  /**
   * The speaker system's reaction to `p.join(c)` where `c` coordinates a
   * group: `p` leaves its own group (as for `Leave`) and becomes a member of
   * `c`'s group. Already being a member changes nothing.
   */
  function JoinGroup(s: seq<Speaker>, p: nat, c: nat): (t: seq<Speaker>)
    requires Valid(s) && p < |s| && IsCoordinator(s, c)
    ensures |t| == |s| && Valid(t)
    ensures t[p].coordinator == c && IsCoordinator(t, c)
    ensures forall i :: 0 <= i < |s| ==> t[i] == s[i].(coordinator := t[i].coordinator)
    ensures forall i :: 0 <= i < |s| && s[i].coordinator == c ==> t[i].coordinator == c
    ensures forall i ::
      (0 <= i < |s| && s[i].coordinator != c && s[i].coordinator != s[p].coordinator) ==>
      t[i] == s[i]
    ensures forall i :: 0 <= i < |s| && i != p && s[i].coordinator == s[p].coordinator ==>
      s[t[i].coordinator].coordinator == s[p].coordinator
  {
    if s[p].coordinator == c then s
    else
      var l := Leave(s, p);
      l[p := l[p].(coordinator := c)]
  }

  /**
   * `parse_zone_groups`: one zone per group, in the order of the groups; a
   * zone is of kind `G` exactly when its group has more than one member, and
   * its master is the group's coordinator.
   */
  method ParseZoneGroups(groups: seq<Group>) returns (zones: seq<Zone>)
    ensures |zones| == |groups|
    ensures forall i :: 0 <= i < |groups| ==> zones[i].master == groups[i].coordinator
    ensures forall i :: 0 <= i < |groups| ==> (zones[i].kind == G <==> |groups[i].members| > 1)
  {
    zones := [];
    for k := 0 to |groups|
      invariant |zones| == k
      invariant forall i :: 0 <= i < k ==> zones[i].master == groups[i].coordinator
      invariant forall i :: 0 <= i < k ==> (zones[i].kind == G <==> |groups[i].members| > 1)
    {
      var group := groups[k];
      if |group.members| > 1 {
        zones := zones + [Zone(G, group.coordinator)];
      } else {
        zones := zones + [Zone(P, group.coordinator)];
      }
    }
  }

  /** The zone list `parse_zone_groups` builds, as a value. */
  function Classify(groups: seq<Group>): seq<Zone> {
    seq(|groups|, i requires 0 <= i < |groups| =>
      Zone(if |groups[i].members| > 1 then G else P, groups[i].coordinator))
  }

  /**
   * For the household's own groups, a zone is a single player exactly when
   * its coordinator is alone, and no two zones share a master.
   */
  lemma HouseholdZones(s: seq<Speaker>, zones: seq<Zone>)
    requires Valid(s)
    requires |zones| == |AllGroups(s)|
    requires forall i :: 0 <= i < |zones| ==> zones[i].master == AllGroups(s)[i].coordinator
    requires forall i :: 0 <= i < |zones| ==> (zones[i].kind == G <==> |AllGroups(s)[i].members| > 1)
    ensures forall i :: 0 <= i < |zones| ==> IsCoordinator(s, zones[i].master)
    ensures forall i :: 0 <= i < |zones| ==>
      (zones[i].kind == P <==> Members(s, zones[i].master) == [zones[i].master])
    ensures forall i, j :: 0 <= i < j < |zones| ==> zones[i].master != zones[j].master
  {
    var gs := AllGroups(s);
    AllGroupsPartition(s);
    forall i | 0 <= i < |zones|
      ensures zones[i].kind == P <==> Members(s, zones[i].master) == [zones[i].master]
    {
      var ms := gs[i].members;
      assert zones[i].master in ms;
      if |ms| <= 1 {
        assert ms == [ms[0]];
      }
    }
  }

  predicate InRange(ms: seq<nat>, n: nat) {
    forall k :: 0 <= k < |ms| ==> ms[k] < n
  }

  /**
   * `join` in group mode: the listed speakers join, one after the other, the
   * group that speaker `t` belongs to at that moment.
   */
  function JoinAll(s: seq<Speaker>, ms: seq<nat>, t: nat): (r: seq<Speaker>)
    requires Valid(s) && t < |s| && InRange(ms, |s|)
    ensures |r| == |s| && Valid(r)
    decreases |ms|
  {
    if ms == [] then s
    else
      var prev := JoinAll(s, ms[..|ms| - 1], t);
      JoinGroup(prev, ms[|ms| - 1], prev[t].coordinator)
  }

  lemma JoinAllSnoc(s: seq<Speaker>, ms: seq<nat>, t: nat, k: nat)
    requires Valid(s) && t < |s| && InRange(ms, |s|) && k < |ms|
    ensures var prev := JoinAll(s, ms[..k], t);
      JoinAll(s, ms[..k + 1], t) == JoinGroup(prev, ms[k], prev[t].coordinator)
  {
    assert ms[..k + 1][..k] == ms[..k];
  }

  /**
   * How far a household `cur` reached from `s` while the group coordinated
   * by `r` moves into the group coordinated by `c`: `c` still coordinates
   * and keeps its members, speakers of neither group are untouched, the
   * source speakers not yet moved are grouped under a source speaker, and
   * only group membership differs.
   */
  predicate Gathering(s: seq<Speaker>, cur: seq<Speaker>, r: nat, c: nat)
    requires Valid(s)
  {
    && |cur| == |s| && Valid(cur) && IsCoordinator(cur, c)
    && (forall i :: 0 <= i < |s| && s[i].coordinator == c ==> cur[i].coordinator == c)
    && (forall i :: 0 <= i < |s| && s[i].coordinator != c && s[i].coordinator != r ==> cur[i] == s[i])
    && (forall i :: 0 <= i < |s| && s[i].coordinator == r && cur[i].coordinator != c ==>
          s[cur[i].coordinator].coordinator == r)
    && (forall i :: 0 <= i < |s| ==> cur[i] == s[i].(coordinator := cur[i].coordinator))
  }

  /** One source speaker joining `c` keeps the gathering going and moves that speaker. */
  lemma GatheringStep(s: seq<Speaker>, cur: seq<Speaker>, r: nat, c: nat, p: nat)
    requires Valid(s) && IsCoordinator(s, c) && Gathering(s, cur, r, c)
    requires p < |s| && s[p].coordinator == r
    ensures Gathering(s, JoinGroup(cur, p, c), r, c)
    ensures JoinGroup(cur, p, c)[p].coordinator == c
    ensures forall i :: 0 <= i < |s| && cur[i].coordinator == c ==> JoinGroup(cur, p, c)[i].coordinator == c
  {
    var next := JoinGroup(cur, p, c);
    var e := cur[p].coordinator;
    assert e == c || s[e].coordinator == r;
    forall i | 0 <= i < |s| && s[i].coordinator != c && s[i].coordinator != r
      ensures next[i] == s[i]
    {
      var d := s[i].coordinator;
      assert s[d].coordinator == d;
    }
    forall i | 0 <= i < |s| && s[i].coordinator == r && next[i].coordinator != c
      ensures s[next[i].coordinator].coordinator == r
    {
      if cur[i].coordinator == e && i != p {
        assert cur[next[i].coordinator].coordinator == e;
      }
    }
  }

  /**
   * Fanning out a source group: when every listed speaker belonged to the
   * group coordinated by `r`, each listed speaker ends up in the group that
   * `t` was in at the start, whose coordinator stays in charge, while
   * speakers of neither group are untouched. (When `t` itself is in `r`'s
   * group, the first join leaves nothing to do and every later one keeps
   * the speaker where it is.)
   */
  lemma {:induction false} JoinAllGathers(s: seq<Speaker>, ms: seq<nat>, t: nat, r: nat)
    requires Valid(s) && t < |s| && InRange(ms, |s|)
    requires forall j :: 0 <= j < |ms| ==> s[ms[j]].coordinator == r
    ensures var out := JoinAll(s, ms, t);
      && Gathering(s, out, r, s[t].coordinator)
      && out[t].coordinator == s[t].coordinator
      && forall j :: 0 <= j < |ms| ==> out[ms[j]].coordinator == s[t].coordinator
    decreases |ms|
  {
    var c := s[t].coordinator;
    if ms == [] {
      assert Gathering(s, s, r, c);
    } else {
      var init := ms[..|ms| - 1];
      assert forall j :: 0 <= j < |init| ==> init[j] == ms[j];
      JoinAllGathers(s, init, t, r);
      var prev := JoinAll(s, init, t);
      assert JoinAll(s, ms, t) == JoinGroup(prev, ms[|ms| - 1], c);
      GatherNext(s, prev, ms, t, r);
    }
  }

  /** The inductive step of `JoinAllGathers`: the last listed speaker joins. */
  lemma GatherNext(s: seq<Speaker>, prev: seq<Speaker>, ms: seq<nat>, t: nat, r: nat)
    requires Valid(s) && t < |s| && InRange(ms, |s|) && |ms| > 0
    requires forall j :: 0 <= j < |ms| ==> s[ms[j]].coordinator == r
    requires Gathering(s, prev, r, s[t].coordinator)
    requires forall j :: 0 <= j < |ms| - 1 ==> prev[ms[j]].coordinator == s[t].coordinator
    ensures var c := s[t].coordinator;
      var out := JoinGroup(prev, ms[|ms| - 1], c);
      && Gathering(s, out, r, c)
      && out[t].coordinator == c
      && forall j :: 0 <= j < |ms| ==> out[ms[j]].coordinator == c
  {
    var c := s[t].coordinator;
    var last := ms[|ms| - 1];
    GatheringStep(s, prev, r, c, last);
  }

  /**
   * One step of the fan-out over the group coordinated by `r`: the target
   * still has its original coordinator, and the next member joins it.
   */
  lemma FanOutStep(s: seq<Speaker>, t: nat, r: nat, k: nat)
    requires Valid(s) && t < |s| && k < |Members(s, r)|
    ensures var ms := Members(s, r);
      var prev := JoinAll(s, ms[..k], t);
      && prev[t].coordinator == s[t].coordinator
      && JoinAll(s, ms[..k + 1], t) == JoinGroup(prev, ms[k], s[t].coordinator)
  {
    var ms := Members(s, r);
    JoinAllGathers(s, ms[..k], t, r);
    JoinAllSnoc(s, ms, t, k);
  }

  /**
   * Fanning out over the whole group coordinated by `r` moves every one of
   * its speakers into the target's group.
   */
  lemma GroupGathered(s: seq<Speaker>, t: nat, r: nat)
    requires Valid(s) && t < |s|
    ensures var out := JoinAll(s, Members(s, r), t);
      && Gathering(s, out, r, s[t].coordinator)
      && forall i :: 0 <= i < |s| && s[i].coordinator == r ==> out[i].coordinator == s[t].coordinator
  {
    var ms := Members(s, r);
    JoinAllGathers(s, ms, t, r);
    forall i | 0 <= i < |s| && s[i].coordinator == r
      ensures JoinAll(s, ms, t)[i].coordinator == s[t].coordinator
    {
      assert i in ms;
      var j :| 0 <= j < |ms| && ms[j] == i;
    }
  }
}
