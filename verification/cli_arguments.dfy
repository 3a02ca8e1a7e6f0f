/**
 * The command-line surface: the parsed arguments, the value constraints the
 * parser enforces on `--vol` and on the positional action, and the completion
 * of shortened IPv4 addresses against the host's own address.
 */
module CliArguments {
  import opened Wrappers
  import opened Text

  /** The parsed command line; absent options are `None` / `false`. */
  datatype Arguments = Arguments(
    player: Option<string>,    // -p, name of the speaker
    ip: Option<string>,        // -i, address of the speaker
    playlist: Option<string>,  // -l
    radio: Option<string>,     // -r
    vol: Option<int>,          // -v
    join: Option<string>,      // -j, name of the speaker to join
    ipjoin: Option<string>,    // -k, address of the speaker to join
    unjoin: bool,              // -u
    action: Option<string>,    // positional action
    group: bool,               // -g
    verbose: bool,             // -o
    bitbar: bool)              // -b

  /** The positional actions the parser accepts. */
  const Actions: seq<string> := ["play", "pause", "next", "previous", "shuffle", "normal"]

  /** Python truthiness of an optional string: present and non-empty. */
  predicate Truthy(o: Option<string>) {
    o.Some? && o.value != ""
  }

  /** `--vol` is declared with `choices=range(0, 101)`. */
  predicate VolumeAccepted(v: int) {
    0 <= v <= 100
  }

  /** The positional action is declared with the six `Actions` as choices. */
  predicate ActionAccepted(a: string) {
    a in Actions
  }

  /** What the parser lets through to the program. */
  predicate Accepted(args: Arguments) {
    && (args.vol.Some? ==> VolumeAccepted(args.vol.value))
    && (args.action.Some? ==> ActionAccepted(args.action.value))
  }

  /**
   * The effective stop index of the Python slice `xs[0:stop]` on a list of
   * length `len`: a negative stop counts from the end and is clipped at 0,
   * a stop past the end is clipped to the length.
   */
  function SliceStop(len: nat, stop: int): (r: nat)
    ensures r <= len
    ensures 0 <= stop <= len ==> r == stop
    ensures stop < 0 ==> r == if len + stop < 0 then 0 else len + stop
  {
    if stop < 0 then (if len + stop < 0 then 0 else len + stop)
    else if stop > len then len
    else stop
  }

  /**
   * `parse_ip`: completes a shortened address with the leading octets of the
   * host address. The host address is a parameter (the program finds it with
   * a UDP socket).
   */
  function ParseIp(ipString: string, hostIp: string): string {
    var subnets := Split(hostIp, '.');
    var sonosSubnets := Split(ipString, '.');
    var newIp := subnets[..SliceStop(|subnets|, 4 - |sonosSubnets|)] + sonosSubnets;
    Join(newIp, '.')
  }

  /**
   * The dotted parts of the completed address are a prefix of the host's
   * parts (as long as the slice rule allows) followed by all of the user's
   * parts, in order.
   */
  lemma ParseIpParts(ipString: string, hostIp: string)
    ensures
      var subnets := Split(hostIp, '.');
      var sonosSubnets := Split(ipString, '.');
      Split(ParseIp(ipString, hostIp), '.')
        == subnets[..SliceStop(|subnets|, 4 - |sonosSubnets|)] + sonosSubnets
  {
    var subnets := Split(hostIp, '.');
    var sonosSubnets := Split(ipString, '.');
    var n := SliceStop(|subnets|, 4 - |sonosSubnets|);
    assert ParseIp(ipString, hostIp) == Join(subnets[..n] + sonosSubnets, '.');
    SplitHasNoSep(hostIp, '.');
    SplitHasNoSep(ipString, '.');
    SplitPrefixJoin(subnets, n, sonosSubnets);
  }

  /** Separator-free parts survive a join and a split unchanged. */
  lemma SplitPrefixJoin(host: seq<string>, n: nat, user: seq<string>)
    requires n <= |host| && |user| >= 1
    requires NoSep(host, '.') && NoSep(user, '.')
    ensures Split(Join(host[..n] + user, '.'), '.') == host[..n] + user
  {
    NoSepPrefixAppend(host, n, user);
    SplitJoin(host[..n] + user, '.');
  }

  lemma NoSepPrefixAppend(host: seq<string>, n: nat, user: seq<string>)
    requires n <= |host| && NoSep(host, '.') && NoSep(user, '.')
    ensures NoSep(host[..n] + user, '.')
  {
    var parts := host[..n] + user;
    forall k | 0 <= k < |parts| ensures '.' !in parts[k] {
      if k < n {
        assert parts[k] == host[k];
      } else {
        assert parts[k] == user[k - n];
      }
    }
  }

  /**
   * With a four-octet host and one to four user parts, the result has four
   * parts: the first `4 - k` host octets, then the user's `k` parts.
   */
  lemma ParseIpCompletes(ipString: string, hostIp: string)
    requires |Split(hostIp, '.')| == 4
    requires |Split(ipString, '.')| <= 4
    ensures
      var k := |Split(ipString, '.')|;
      var parts := Split(ParseIp(ipString, hostIp), '.');
      && |parts| == 4
      && parts[..4 - k] == Split(hostIp, '.')[..4 - k]
      && parts[4 - k..] == Split(ipString, '.')
  {
    ParseIpParts(ipString, hostIp);
  }

  /** A complete four-part address comes back unchanged, whatever the host. */
  lemma ParseIpFullAddress(ipString: string, hostIp: string)
    requires |Split(ipString, '.')| == 4
    ensures ParseIp(ipString, hostIp) == ipString
  {
    var subnets := Split(hostIp, '.');
    var sonosSubnets := Split(ipString, '.');
    assert subnets[..SliceStop(|subnets|, 0)] + sonosSubnets == sonosSubnets;
    JoinSplit(ipString, '.');
  }

  /**
   * More than four user parts: the stop index `4 - k` is negative, so the
   * host keeps all but its last `k - 4` octets (none once `k >= 8`).
   */
  lemma ParseIpLong(ipString: string, hostIp: string)
    requires |Split(hostIp, '.')| == 4
    requires |Split(ipString, '.')| > 4
    ensures
      var k := |Split(ipString, '.')|;
      var keep := if k >= 8 then 0 else 8 - k;
      Split(ParseIp(ipString, hostIp), '.') == Split(hostIp, '.')[..keep] + Split(ipString, '.')
  {
    var k := |Split(ipString, '.')|;
    assert SliceStop(4, 4 - k) == if k >= 8 then 0 else 8 - k;
    ParseIpParts(ipString, hostIp);
  }

  /** The user's parts always end the completed address. */
  lemma ParseIpKeepsUserParts(ipString: string, hostIp: string)
    ensures
      var user := Split(ipString, '.');
      var parts := Split(ParseIp(ipString, hostIp), '.');
      |user| <= |parts| && parts[|parts| - |user|..] == user
  {
    ParseIpParts(ipString, hostIp);
  }

  /** Completion of one optional address, applied only when it is truthy. */
  function Complete(o: Option<string>, hostIp: string): Option<string> {
    if Truthy(o) then Some(ParseIp(o.value, hostIp)) else o
  }

  /**
   * The post-processing after parsing: only `--ip` and `--ipjoin` are
   * completed, and each only when it is a non-empty string.
   */
  function CompleteAddresses(args: Arguments, hostIp: string): (r: Arguments)
    ensures r.(ip := args.ip, ipjoin := args.ipjoin) == args
    ensures Truthy(args.ip) ==> r.ip == Some(ParseIp(args.ip.value, hostIp))
    ensures !Truthy(args.ip) ==> r.ip == args.ip
    ensures Truthy(args.ipjoin) ==> r.ipjoin == Some(ParseIp(args.ipjoin.value, hostIp))
    ensures !Truthy(args.ipjoin) ==> r.ipjoin == args.ipjoin
    ensures Accepted(r) == Accepted(args)
  {
    args.(ip := Complete(args.ip, hostIp), ipjoin := Complete(args.ipjoin, hostIp))
  }
}
