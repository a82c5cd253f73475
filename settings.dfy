/**
 * dnsArgs.OverrideConfig: command-line values merged into the run configuration,
 * with the record-type list upper-cased, CNAME moved to the front and ["A"] as default.
 */
module Settings {
  import opened Text

  /** An entry that the normalisation turns into "CNAME". */
  predicate IsCname(t: string)
  {
    Upper(t) == "CNAME"
  }

  /** Index of the first entry at or after i that upper-cases to CNAME, |s| when none does. */
  function FirstCnameFrom(s: seq<string>, i: nat): (j: nat)
    requires i <= |s|
    ensures i <= j <= |s|
    ensures j < |s| ==> IsCname(s[j])
    ensures forall k :: i <= k < j ==> !IsCname(s[k])
    decreases |s| - i
  {
    if i == |s| then |s|
    else if IsCname(s[i]) then i
    else FirstCnameFrom(s, i + 1)
  }

  function FirstCname(s: seq<string>): (j: nat)
    ensures j <= |s|
    ensures j < |s| ==> IsCname(s[j])
    ensures forall k :: 0 <= k < j ==> !IsCname(s[k])
  {
    FirstCnameFrom(s, 0)
  }

  function UpperAll(s: seq<string>): seq<string>
  {
    seq(|s|, k requires 0 <= k < |s| => Upper(s[k]))
  }

  /**
   * The list after the first i passes of the normalising loop: entries before i are
   * upper-cased, and once the first CNAME (at j < i) has been met it sits at index 0
   * and the old first entry sits at j. Entries from i on are untouched.
   */
  function AfterPasses(s: seq<string>, i: nat): (t: seq<string>)
    requires i <= |s|
    ensures |t| == |s|
  {
    var j := FirstCname(s);
    seq(|s|, k requires 0 <= k < |s| =>
      if i <= k then s[k]
      else if j < i && k == 0 then Upper(s[j])
      else if j < i && k == j then Upper(s[0])
      else Upper(s[k]))
  }

  /** The record types a run queries, given the ones named on the command line. */
  function RecordTypesFor(given: seq<string>): seq<string>
  {
    if |given| > 0 then AfterPasses(given, |given|) else ["A"]
  }

  /** The loop of OverrideConfig over conf.RecordTypes, in place. */
  method NormalizeRecordTypes(a: array<string>)
    modifies a
    ensures a[..] == AfterPasses(old(a[..]), a.Length)
  {
    ghost var s := a[..];
    var i := 0;
    while i < a.Length
      invariant 0 <= i <= a.Length
      invariant a[..] == AfterPasses(s, i)
    {
      a[i] := Upper(a[i]);
      if a[i] == "CNAME" {
        var tmp := a[0];
        a[0] := a[i];
        a[i] := tmp;
      }
      i := i + 1;
    }
  }

  /** The conf.RecordTypes slice OverrideConfig builds from the given types. */
  method NewRecordTypes(given: seq<string>) returns (a: array<string>)
    ensures fresh(a) && a[..] == RecordTypesFor(given)
  {
    if |given| > 0 {
      a := new string[|given|](k requires 0 <= k < |given| => given[k]);
      assert a[..] == given;
      NormalizeRecordTypes(a);
    } else {
      a := new string[1](_ => "A");
    }
  }

  lemma RecordTypesUppercase(given: seq<string>)
    ensures forall k :: 0 <= k < |RecordTypesFor(given)| ==> IsUpper(RecordTypesFor(given)[k])
  {
  }

  /** With a CNAME present the result is the upper-cased list with its first CNAME swapped to the front. */
  lemma RecordTypesSwapCname(given: seq<string>)
    requires FirstCname(given) < |given|
    ensures var u, j := UpperAll(given), FirstCname(given);
      RecordTypesFor(given) == u[0 := u[j]][j := u[0]]
  {
  }

  /** Without a CNAME the order is kept and only the case changes. */
  lemma RecordTypesKeepOrder(given: seq<string>)
    requires |given| > 0
    requires forall k :: 0 <= k < |given| ==> !IsCname(given[k])
    ensures RecordTypesFor(given) == UpperAll(given)
  {
  }

  /** The list is a permutation of the upper-cased input. */
  lemma {:induction false} RecordTypesPermutation(given: seq<string>)
    requires |given| > 0
    ensures multiset(RecordTypesFor(given)) == multiset(UpperAll(given))
  {
    var u, j := UpperAll(given), FirstCname(given);
    if j < |given| {
      RecordTypesSwapCname(given);
      var v := u[0 := u[j]];
      assert multiset(v) == multiset(u) - multiset{u[0]} + multiset{u[j]};
      assert v[j] == u[j];
      assert multiset(v[j := u[0]]) == multiset(v) - multiset{u[j]} + multiset{u[0]};
    } else {
      RecordTypesKeepOrder(given);
    }
  }

  /** Index 0 is "CNAME" exactly when some given entry upper-cases to CNAME. */
  lemma RecordTypesCnameFirst(given: seq<string>)
    ensures |RecordTypesFor(given)| > 0
    ensures RecordTypesFor(given)[0] == "CNAME" <==> exists k :: 0 <= k < |given| && IsCname(given[k])
  {
  }

  /** No record types on the command line means exactly ["A"]. */
  lemma DefaultRecordType()
    ensures RecordTypesFor([]) == ["A"]
  {
  }

  /** Normalising an already normalised list changes nothing. */
  lemma {:induction false} RecordTypesIdempotent(given: seq<string>)
    ensures RecordTypesFor(RecordTypesFor(given)) == RecordTypesFor(given)
  {
    var r := RecordTypesFor(given);
    RecordTypesUppercase(given);
    forall k | 0 <= k < |r|
      ensures Upper(r[k]) == r[k]
    {
      UpperFixesUpper(r[k]);
    }
    RecordTypesCnameFirst(given);
    var j := FirstCname(r);
    if r[0] == "CNAME" {
      assert IsCname(r[0]);
      assert j == 0;
    } else {
      if |given| > 0 {
        RecordTypesKeepOrder(given);
        forall k | 0 <= k < |r|
          ensures !IsCname(r[k])
        {
          UpperIdempotent(given[k]);
          assert !IsCname(given[k]);
        }
      }
    }
    var rr := RecordTypesFor(r);
    assert |rr| == |r|;
    forall k | 0 <= k < |r|
      ensures rr[k] == r[k]
    {
    }
  }

  /**
   * The dnsArgs fields OverrideConfig reads. Each string set is given as the slice its
   * Slice() method returns; the order of that slice is whatever the set yields.
   */
  datatype DnsArgs = DnsArgs(
    blacklist: seq<string>,
    domains: seq<string>,
    maxDNSQueries: int,
    names: seq<string>,
    recordTypes: seq<string>,
    resolvers: seq<string>,
    timeout: int,
    unresolved: bool,
    monitorResolverRate: bool,
    directory: string)

  /** The config.Config fields OverrideConfig writes. */
  class Config {
    var dir: string
    var maxDNSQueries: int
    var providedNames: seq<string>
    var includeUnresolvable: bool
    var blacklist: seq<string>
    var timeout: int
    var recordTypes: array<string>
    var resolvers: seq<string>
    var monitorResolverRate: bool
    var domains: seq<string>

    /** Settings before any override; config.NewConfig's own defaults are not part of this model. */
    constructor (recordTypes0: seq<string>, monitor: bool)
      ensures fresh(recordTypes) && recordTypes[..] == recordTypes0
      ensures dir == "" && maxDNSQueries == 0 && providedNames == [] && !includeUnresolvable
      ensures blacklist == [] && timeout == 0 && resolvers == [] && domains == []
      ensures monitorResolverRate == monitor
    {
      dir, maxDNSQueries, providedNames, includeUnresolvable := "", 0, [], false;
      blacklist, timeout, resolvers, domains := [], 0, [], [];
      monitorResolverRate := monitor;
      recordTypes := new string[|recordTypes0|](k requires 0 <= k < |recordTypes0| => recordTypes0[k]);
    }

    /**
     * dnsArgs.OverrideConfig (its receiver is the argument d): every value given on the
     * command line replaces the configured one, the record types are normalised, and the
     * domains are appended. It always returns nil, so no error result is modelled.
     */
    method Override(d: DnsArgs)
      modifies this
      ensures dir == (if d.directory != "" then d.directory else old(dir))
      ensures maxDNSQueries == (if d.maxDNSQueries > 0 then d.maxDNSQueries else old(maxDNSQueries))
      ensures providedNames == (if |d.names| > 0 then d.names else old(providedNames))
      ensures includeUnresolvable == (d.unresolved || old(includeUnresolvable))
      ensures blacklist == (if |d.blacklist| > 0 then d.blacklist else old(blacklist))
      ensures timeout == (if d.timeout > 0 then d.timeout else old(timeout))
      ensures fresh(recordTypes) && recordTypes[..] == RecordTypesFor(d.recordTypes)
      ensures resolvers == (if |d.resolvers| > 0 then d.resolvers else old(resolvers))
      ensures monitorResolverRate == (d.monitorResolverRate && old(monitorResolverRate))
      ensures domains == old(domains) + d.domains
    {
      OverrideLimits(d);
      OverrideNames(d);
      recordTypes := NewRecordTypes(d.recordTypes);
      OverrideResolution(d);
    }

    /** The directory, query limit, unresolvable flag and timeout overrides. */
    method OverrideLimits(d: DnsArgs)
      modifies this`dir, this`maxDNSQueries, this`includeUnresolvable, this`timeout
      ensures dir == (if d.directory != "" then d.directory else old(dir))
      ensures maxDNSQueries == (if d.maxDNSQueries > 0 then d.maxDNSQueries else old(maxDNSQueries))
      ensures includeUnresolvable == (d.unresolved || old(includeUnresolvable))
      ensures timeout == (if d.timeout > 0 then d.timeout else old(timeout))
    {
      if d.directory != "" {
        dir := d.directory;
      }
      if d.maxDNSQueries > 0 {
        maxDNSQueries := d.maxDNSQueries;
      }
      if d.unresolved {
        includeUnresolvable := true;
      }
      if d.timeout > 0 {
        timeout := d.timeout;
      }
    }

    /** The provided-names and blacklist overrides. */
    method OverrideNames(d: DnsArgs)
      modifies this`providedNames, this`blacklist
      ensures providedNames == (if |d.names| > 0 then d.names else old(providedNames))
      ensures blacklist == (if |d.blacklist| > 0 then d.blacklist else old(blacklist))
    {
      if |d.names| > 0 {
        providedNames := d.names;
      }
      if |d.blacklist| > 0 {
        blacklist := d.blacklist;
      }
    }

    /**
     * The resolver, rate-monitoring and domain overrides. config.SetResolvers is taken to
     * replace the resolver list and config.AddDomains to append the domains.
     */
    method OverrideResolution(d: DnsArgs)
      modifies this`resolvers, this`monitorResolverRate, this`domains
      ensures resolvers == (if |d.resolvers| > 0 then d.resolvers else old(resolvers))
      ensures monitorResolverRate == (d.monitorResolverRate && old(monitorResolverRate))
      ensures domains == old(domains) + d.domains
    {
      if |d.resolvers| > 0 {
        resolvers := d.resolvers;
      }
      if !d.monitorResolverRate {
        monitorResolverRate := false;
      }
      domains := domains + d.domains;
    }
  }
}
