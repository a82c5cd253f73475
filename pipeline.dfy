/**
 * How the record-type normalisation of OverrideConfig and the loop of processDNSRequest
 * work together: because CNAME is moved to the front, a name whose CNAME lookup answers
 * is resolved with that single query.
 */
module Pipeline {
  import opened DnsTypes
  import opened Settings
  import opened Resolution
  import Text

  /**
   * When a CNAME type was given and the CNAME lookup succeeds with answers, only that
   * lookup is made, and its answers are the records.
   */
  lemma CnameLookupSuffices(given: seq<string>, o: Oracles, name: string)
    requires exists k :: 0 <= k < |given| && IsCname(given[k])
    requires Contribution(o, name, "CNAME") != []
    ensures var types := RecordTypesFor(given);
      QueriedCount(o, name, types) == 1
      && types[..1] == ["CNAME"]
      && Collected(o, name, types[..1]) == Contribution(o, name, "CNAME")
  {
  }

  /**
   * With record types given as [a, CNAME] the run asks for CNAME first, and a name whose
   * CNAME lookup answers is never queried for A.
   */
  lemma CnameBeforeA(o: Oracles, name: string)
    requires Contribution(o, name, "CNAME") != []
    ensures RecordTypesFor(["a", "CNAME"]) == ["CNAME", "A"]
    ensures QueriedCount(o, name, RecordTypesFor(["a", "CNAME"])) == 1
  {
    var given := ["a", "CNAME"];
    assert IsCname(given[1]);
    assert !IsCname(given[0]);
    assert FirstCname(given) == 1;
    assert Text.Upper("a") == "A" by {
      assert Text.Upper("a")[0] == 'A';
    }
    var r := RecordTypesFor(given);
    assert r[0] == "CNAME" && r[1] == "A";
    CnameLookupSuffices(given, o, name);
  }
}
