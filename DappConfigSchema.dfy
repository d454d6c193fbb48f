/** The `dapp` block of a dapp's configuration file and the check the schema
    applies to each entry of its `ports` list: the pattern `^[0-9]+:[0-9]+$`,
    a host port, one colon, a container port. */
module DappConfigSchema {
  import opened Wrappers
  import opened Text

  /** The application block. `uid` and `repository` are required strings,
      `tag` is optional, `httpPort` is a required number (modelled as an
      integer) and `ports` is an optional list of `host:container` strings. */
  datatype Dapp = Dapp(
    uid: string,
    repository: string,
    tag: Option<string>,
    httpPort: int,
    ports: Option<seq<string>>)

  /** A parsed configuration file; the build-plan part the schema extends is
      not modelled. */
  datatype DappConfig = DappConfig(dapp: Dapp)

  predicate AllDigits(s: string) {
    forall i :: 0 <= i < |s| ==> IsDigit(s[i])
  }

  /** The colon at index `k` has only digits before it and one or more
      digits after it. */
  ghost predicate ColonSplit(s: string, k: int) {
    0 <= k < |s| - 1 && s[k] == ':' && AllDigits(s[..k]) && AllDigits(s[k + 1..])
  }

  /** The language of `^[0-9]+:[0-9]+$`, stated directly: some colon has one
      or more digits before it and one or more digits after it, and nothing
      else. */
  ghost predicate HostColonContainer(s: string) {
    exists k :: 0 < k && ColonSplit(s, k)
  }

  // ---------------------------------------------------------------------
  // The regular expression, run as the automaton a regex engine builds

  datatype PortState = HostStart | Host | ContainerStart | Container

  function Advance(q: PortState, c: char): Option<PortState> {
    match q
    case HostStart => if IsDigit(c) then Some(Host) else None
    case Host => if IsDigit(c) then Some(Host) else if c == ':' then Some(ContainerStart) else None
    case ContainerStart => if IsDigit(c) then Some(Container) else None
    case Container => if IsDigit(c) then Some(Container) else None
  }

  function Accepts(q: PortState, s: string): bool
    decreases |s|
  {
    if |s| == 0 then q == Container
    else
      match Advance(q, s[0])
      case None => false
      case Some(next) => Accepts(next, s[1..])
  }

  /** `/^[0-9]+:[0-9]+$/.test(s)`, the refinement on each `ports` entry. */
  function IsPortMapping(s: string): bool {
    Accepts(HostStart, s)
  }

  /** A configuration the schema accepts: `ports` is absent, or every entry
      is a port mapping. */
  predicate ValidDappConfig(c: DappConfig) {
    match c.dapp.ports
    case None => true
    case Some(ports) => forall i :: 0 <= i < |ports| ==> IsPortMapping(ports[i])
  }

  // ---------------------------------------------------------------------
  // The automaton accepts exactly the pattern's language

  lemma {:induction false} AcceptsContainer(s: string)
    ensures Accepts(Container, s) <==> AllDigits(s)
  {
    if |s| > 0 {
      AcceptsContainer(s[1..]);
      assert AllDigits(s) <==> IsDigit(s[0]) && AllDigits(s[1..]);
    }
  }

  lemma AcceptsContainerStart(s: string)
    ensures Accepts(ContainerStart, s) <==> |s| > 0 && AllDigits(s)
  {
    if |s| > 0 {
      AcceptsContainer(s[1..]);
      assert AllDigits(s) <==> IsDigit(s[0]) && AllDigits(s[1..]);
    }
  }

  /** Dropping a leading digit moves every colon split one place left. */
  lemma ColonSplitShift(s: string, k: int)
    requires |s| > 0 && IsDigit(s[0]) && k >= 1
    ensures ColonSplit(s, k) <==> ColonSplit(s[1..], k - 1)
  {
    if 0 <= k - 1 < |s| - 2 {
      assert s[..k] == [s[0]] + s[1..][..k - 1];
      assert s[k + 1..] == s[1..][k..];
      assert AllDigits(s[..k]) <==> AllDigits(s[1..][..k - 1]);
    }
  }

  lemma {:induction false} AcceptsHost(s: string)
    ensures Accepts(Host, s) <==> exists k :: ColonSplit(s, k)
  {
    if |s| > 0 {
      if IsDigit(s[0]) {
        AcceptsHost(s[1..]);
        if Accepts(Host, s) {
          var k :| ColonSplit(s[1..], k);
          ColonSplitShift(s, k + 1);
        } else {
          forall k | 0 <= k < |s| ensures !ColonSplit(s, k) {
            if k > 0 { ColonSplitShift(s, k); }
          }
        }
      } else if s[0] == ':' {
        AcceptsContainerStart(s[1..]);
        if Accepts(Host, s) {
          assert ColonSplit(s, 0);
        } else {
          forall k | 0 < k < |s| ensures !ColonSplit(s, k) {
            assert s[..k][0] == ':';
          }
        }
      } else {
        forall k | 0 < k < |s| ensures !ColonSplit(s, k) {
          assert s[..k][0] == s[0];
        }
      }
    }
  }

  /** The automaton accepts exactly the strings of `^[0-9]+:[0-9]+$`. */
  lemma PortMappingMatchesPattern(s: string)
    ensures IsPortMapping(s) <==> HostColonContainer(s)
  {
    if |s| > 0 && IsDigit(s[0]) {
      AcceptsHost(s[1..]);
      if IsPortMapping(s) {
        var k :| ColonSplit(s[1..], k);
        ColonSplitShift(s, k + 1);
      } else {
        forall k | 0 < k < |s| ensures !ColonSplit(s, k) {
          ColonSplitShift(s, k);
        }
      }
    } else {
      forall k | 0 < k < |s| ensures !ColonSplit(s, k) {
        assert s[..k][0] == s[0];
      }
    }
  }

  // ---------------------------------------------------------------------
  // Consequences of the pattern

  /** A mapping with an empty side, such as `:80` or `80:`, is rejected. */
  lemma PortMappingRejectsEmptySide(t: string)
    ensures !IsPortMapping(":" + t)
    ensures !IsPortMapping(t + ":")
  {
    var s := t + ":";
    PortMappingMatchesPattern(s);
    forall k | 0 < k < |s| - 1 ensures !ColonSplit(s, k) {
      assert s[k + 1..][|s| - k - 2] == ':';
    }
  }

  /** An accepted mapping is digits and exactly one colon; in particular it
      has no space, sign, letter or second colon. */
  lemma PortMappingAlphabet(s: string)
    requires IsPortMapping(s)
    ensures forall i :: 0 <= i < |s| ==> IsDigit(s[i]) || s[i] == ':'
    ensures Count(s, ':') == 1
    ensures NoSpace(s)
  {
    PortMappingMatchesPattern(s);
    var k :| 0 < k && ColonSplit(s, k);
    assert s == s[..k] + [':'] + s[k + 1..];
    forall i | 0 <= i < |s| ensures IsDigit(s[i]) || s[i] == ':' {
      if i < k { assert s[i] == s[..k][i]; }
      else if i > k { assert s[i] == s[k + 1..][i - k - 1]; }
    }
    NoColonInDigits(s[..k]);
    NoColonInDigits(s[k + 1..]);
    CountAppend(s[..k], [':'], ':');
    CountAppend(s[..k] + [':'], s[k + 1..], ':');
  }

  lemma NoColonInDigits(d: string)
    requires AllDigits(d)
    ensures Count(d, ':') == 0
  {
    CountPositive(d, ':');
  }

  /** Two colons at different places count twice. */
  lemma CountTwoColons(s: string, i: int, j: int)
    requires 0 <= i < j < |s| && s[i] == ':' && s[j] == ':'
    ensures Count(s, ':') >= 2
  {
    assert s == s[..j] + s[j..];
    CountAppend(s[..j], s[j..], ':');
    assert s[..j][i] == ':';
    assert s[j..][0] == ':';
    CountPositive(s[..j], ':');
    CountPositive(s[j..], ':');
  }

  /** A string holding a character that is neither a digit nor a colon, or
      holding two colons, is rejected. */
  lemma PortMappingRejectsStrays(s: string, i: int, j: int)
    requires 0 <= i < |s| && 0 <= j < |s|
    requires (!IsDigit(s[i]) && s[i] != ':') || (i != j && s[i] == ':' && s[j] == ':')
    ensures !IsPortMapping(s)
  {
    if i < j && s[i] == ':' && s[j] == ':' {
      CountTwoColons(s, i, j);
    } else if j < i && s[i] == ':' && s[j] == ':' {
      CountTwoColons(s, j, i);
    }
    if IsPortMapping(s) {
      PortMappingAlphabet(s);
    }
  }
}
