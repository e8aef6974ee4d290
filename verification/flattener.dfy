/**
 The response flattener of the vessel-search client (`parse_vessels`): it walks
 a list of search responses and, for every entry, keeps one vessel record and
 all of the entry's registered owners. The two lists stand in for the two
 tables the client builds from them.
 */
module Flattener {
  import opened Wrappers
  import opened Json

  /** The vessel rows and the owner rows, in the order they were appended. */
  datatype Tables = Tables(vessels: seq<Value>, owners: seq<Value>)

  const NoRows := Tables([], [])

  /**
   The registry record is the one kept unless the entry's
   `registryInfoTotalRecords` equals 0; an absent or `null` count keeps it too.
   */
  predicate UsesRegistry(fields: map<string, Value>) {
    !EqualsZero(Field(fields, "registryInfoTotalRecords"))
  }

  /** The name of the list the vessel record is taken from. */
  function SourceKey(fields: map<string, Value>): string {
    if UsesRegistry(fields) then "registryInfo" else "selfReportedInfo"
  }

  /** The one vessel record an entry contributes: the first element of its chosen source list. */
  function PickVessel(entry: Value): (r: Result<Value, Error>)
    ensures !entry.Obj? ==> r == Failure(TypeError)
    ensures entry.Obj? && UsesRegistry(entry.fields) ==> r == First(Field(entry.fields, "registryInfo"))
    ensures entry.Obj? && !UsesRegistry(entry.fields) ==> r == First(Field(entry.fields, "selfReportedInfo"))
  {
    match entry
    case Obj(fields) =>
      var count := Field(fields, "registryInfoTotalRecords");
      var ships := Field(fields, if EqualsZero(count) then "selfReportedInfo" else "registryInfo");
      First(ships)
    case _ => Failure(TypeError)
  }

  /** The owner records an entry contributes: whatever its `registryOwners` iterates over. */
  function OwnersOf(entry: Value): (r: Result<seq<Value>, Error>)
    ensures !entry.Obj? ==> r == Failure(TypeError)
    ensures entry.Obj? ==> r == Items(Field(entry.fields, "registryOwners"))
  {
    var coms :- Get(entry, "registryOwners");
    Items(coms)
  }

  /** One pass of the inner loop: the vessel is chosen first, then the owners are read. */
  function ParseEntry(entry: Value): (r: Result<(Value, seq<Value>), Error>)
    ensures r.Success? <==> PickVessel(entry).Success? && OwnersOf(entry).Success?
    ensures r.Success? ==> r.value == (PickVessel(entry).value, OwnersOf(entry).value)
    ensures PickVessel(entry).Failure? ==> r == Failure(PickVessel(entry).error)
    ensures PickVessel(entry).Success? && OwnersOf(entry).Failure? ==> r == Failure(OwnersOf(entry).error)
  {
    var vessel :- PickVessel(entry);
    var owners :- OwnersOf(entry);
    Success((vessel, owners))
  }

  /** The entries list of one response: `result.get('entries')`, iterated. */
  function EntriesOf(response: Value): (r: Result<seq<Value>, Error>)
    ensures !response.Obj? ==> r == Failure(TypeError)
    ensures response.Obj? ==> r == Items(Field(response.fields, "entries"))
  {
    var entries :- Get(response, "entries");
    Items(entries)
  }

  /** Appends two partial tables, the first failure in program order winning. */
  function Combine(first: Result<Tables, Error>, second: Result<Tables, Error>): Result<Tables, Error> {
    var a :- first;
    var b :- second;
    Success(Tables(a.vessels + b.vessels, a.owners + b.owners))
  }

  /** The inner loop over the entries of one response. */
  function ParseEntries(entries: seq<Value>): (r: Result<Tables, Error>)
    ensures r.Success? ==> |r.value.vessels| == |entries|
    ensures |entries| > 0 && ParseEntry(entries[0]).Failure? ==> r == Failure(ParseEntry(entries[0]).error)
    decreases |entries|
  {
    if |entries| == 0 then Success(NoRows)
    else
      var row :- ParseEntry(entries[0]);
      Combine(Success(Tables([row.0], row.1)), ParseEntries(entries[1..]))
  }

  /** `parse_vessels`: the outer loop over the responses. */
  function ParseVessels(responses: seq<Value>): (r: Result<Tables, Error>)
    ensures r.Success? ==> |r.value.vessels| == |AllEntries(responses)|
    ensures |responses| > 0 && EntriesOf(responses[0]).Failure? ==> r == Failure(EntriesOf(responses[0]).error)
    decreases |responses|
  {
    if |responses| == 0 then Success(NoRows)
    else
      var entries :- EntriesOf(responses[0]);
      Combine(ParseEntries(entries), ParseVessels(responses[1..]))
  }

  // ---------------------------------------------------------------------------
  // Reference definitions: what the loops compute when nothing fails.

  /** The vessel record of an entry that parses. */
  function VesselOf(entry: Value): Value {
    if PickVessel(entry).Success? then PickVessel(entry).value else Null
  }

  /** The owner records of an entry that parses. */
  function OwnerRows(entry: Value): seq<Value> {
    if OwnersOf(entry).Success? then OwnersOf(entry).value else []
  }

  /** Every entry's owner records, concatenated in entry order. */
  function AllOwners(entries: seq<Value>): seq<Value>
    decreases |entries|
  {
    if |entries| == 0 then [] else OwnerRows(entries[0]) + AllOwners(entries[1..])
  }

  /** Every response's entries, concatenated in response order. */
  function AllEntries(responses: seq<Value>): seq<Value>
    decreases |responses|
  {
    if |responses| == 0 then []
    else (if EntriesOf(responses[0]).Success? then EntriesOf(responses[0]).value else []) + AllEntries(responses[1..])
  }

  predicate EntriesParse(entries: seq<Value>) {
    forall j :: 0 <= j < |entries| ==> ParseEntry(entries[j]).Success?
  }

  predicate ResponsesHaveEntries(responses: seq<Value>) {
    forall i :: 0 <= i < |responses| ==> EntriesOf(responses[i]).Success?
  }

  // ---------------------------------------------------------------------------
  // Properties

  /**
   The inner loop succeeds exactly when every entry parses, and then yields
   one vessel per entry, in entry order, and the concatenation of the
   entries' owner lists.
   */
  lemma {:induction false} ParseEntriesMeaning(entries: seq<Value>)
    ensures ParseEntries(entries).Success? <==> EntriesParse(entries)
    ensures ParseEntries(entries).Success? ==>
              && |ParseEntries(entries).value.vessels| == |entries|
              && (forall j :: 0 <= j < |entries| ==> ParseEntries(entries).value.vessels[j] == VesselOf(entries[j]))
              && ParseEntries(entries).value.owners == AllOwners(entries)
    decreases |entries|
  {
    if |entries| > 0 {
      ParseEntriesMeaning(entries[1..]);
      assert forall j :: 1 <= j < |entries| ==> entries[1..][j - 1] == entries[j];
      if ParseEntries(entries).Success? {
        var t := ParseEntries(entries).value;
        var rest := ParseEntries(entries[1..]).value;
        assert t.vessels == [VesselOf(entries[0])] + rest.vessels;
        forall j | 0 <= j < |entries|
          ensures t.vessels[j] == VesselOf(entries[j])
        {
          if j > 0 {
            assert t.vessels[j] == rest.vessels[j - 1];
          }
        }
      }
    }
  }

  /** The error raised is that of the first entry that fails to parse. */
  lemma {:induction false} FirstFailingEntryDecides(entries: seq<Value>, j: nat)
    requires j < |entries|
    requires forall k :: 0 <= k < j ==> ParseEntry(entries[k]).Success?
    requires ParseEntry(entries[j]).Failure?
    ensures ParseEntries(entries) == Failure(ParseEntry(entries[j]).error)
    decreases j
  {
    if j > 0 {
      assert forall k :: 0 <= k < j - 1 ==> entries[1..][k] == entries[k + 1];
      FirstFailingEntryDecides(entries[1..], j - 1);
    }
  }

  /** The inner loop run over two lists one after the other is the loop over their concatenation. */
  lemma {:induction false} ParseEntriesAppend(a: seq<Value>, b: seq<Value>)
    ensures ParseEntries(a + b) == Combine(ParseEntries(a), ParseEntries(b))
    decreases |a|
  {
    if |a| == 0 {
      assert a + b == b;
      match ParseEntries(b)
      case Success(t) => assert Tables([] + t.vessels, [] + t.owners) == t;
      case Failure(_) =>
    } else {
      assert (a + b)[0] == a[0];
      assert (a + b)[1..] == a[1..] + b;
      ParseEntriesAppend(a[1..], b);
      var head := ParseEntry(a[0]);
      if head.Success? {
        CombineAssociates(Success(Tables([head.value.0], head.value.1)), ParseEntries(a[1..]), ParseEntries(b));
      }
    }
  }

  /** A single entry gives its own vessel and owners, or its own error. */
  lemma SingleEntry(entry: Value)
    ensures ParseEntry(entry).Success? ==>
              ParseEntries([entry]) == Success(Tables([ParseEntry(entry).value.0], ParseEntry(entry).value.1))
    ensures ParseEntry(entry).Failure? ==> ParseEntries([entry]) == Failure(ParseEntry(entry).error)
  {
    assert [entry][1..] == [];
    if ParseEntry(entry).Success? {
      var row := ParseEntry(entry).value;
      assert [row.0] + [] == [row.0] && row.1 + [] == row.1;
    }
  }

  /** A single response gives what its entries give. */
  lemma SingleResponse(response: Value)
    requires EntriesOf(response).Success?
    ensures ParseVessels([response]) == ParseEntries(EntriesOf(response).value)
  {
    assert [response][1..] == [];
    var r := ParseEntries(EntriesOf(response).value);
    if r.Success? {
      assert r.value.vessels + [] == r.value.vessels && r.value.owners + [] == r.value.owners;
    }
  }

  /** Appending partial tables is associative, failures included. */
  lemma CombineAssociates(x: Result<Tables, Error>, y: Result<Tables, Error>, z: Result<Tables, Error>)
    ensures Combine(x, Combine(y, z)) == Combine(Combine(x, y), z)
  {
    if x.Success? && y.Success? && z.Success? {
      assert x.value.vessels + (y.value.vessels + z.value.vessels) == (x.value.vessels + y.value.vessels) + z.value.vessels;
      assert x.value.owners + (y.value.owners + z.value.owners) == (x.value.owners + y.value.owners) + z.value.owners;
    }
  }

  /**
   Once every response has an iterable `entries`, flattening the responses is
   flattening the concatenation of their entries, failures included.
   */
  lemma {:induction false} ResponsesAreConcatenated(responses: seq<Value>)
    requires ResponsesHaveEntries(responses)
    ensures ParseVessels(responses) == ParseEntries(AllEntries(responses))
    decreases |responses|
  {
    if |responses| > 0 {
      assert forall i :: 0 <= i < |responses| - 1 ==> responses[1..][i] == responses[i + 1];
      ResponsesAreConcatenated(responses[1..]);
      ParseEntriesAppend(EntriesOf(responses[0]).value, AllEntries(responses[1..]));
    } else {
      assert ParseEntries([]) == Success(NoRows);
    }
  }

  /**
   `parse_vessels` succeeds exactly when every response has entries and
   every entry parses; then it yields exactly one vessel per entry across all
   responses, in response-then-entry order, and the in-order concatenation of
   every entry's `registryOwners`.
   */
  lemma ParseVesselsMeaning(responses: seq<Value>)
    ensures ParseVessels(responses).Success? <==>
              ResponsesHaveEntries(responses) && EntriesParse(AllEntries(responses))
    ensures ParseVessels(responses).Success? ==>
              var all := AllEntries(responses);
              var t := ParseVessels(responses).value;
              && |t.vessels| == |all|
              && (forall k :: 0 <= k < |all| ==> t.vessels[k] == VesselOf(all[k]))
              && t.owners == AllOwners(all)
  {
    if ParseVessels(responses).Success? {
      SuccessHasEntries(responses);
    }
    if ResponsesHaveEntries(responses) {
      ResponsesAreConcatenated(responses);
      ParseEntriesMeaning(AllEntries(responses));
    }
  }

  /** A successful flattening implies every response had an iterable `entries`. */
  lemma {:induction false} SuccessHasEntries(responses: seq<Value>)
    requires ParseVessels(responses).Success?
    ensures ResponsesHaveEntries(responses)
    decreases |responses|
  {
    if |responses| > 0 {
      assert ParseVessels(responses[1..]).Success?;
      SuccessHasEntries(responses[1..]);
      assert forall i :: 1 <= i < |responses| ==> responses[i] == responses[1..][i - 1];
    }
  }

  /** The outer loop run over two lists one after the other is the loop over their concatenation. */
  lemma {:induction false} ParseVesselsAppend(a: seq<Value>, b: seq<Value>)
    ensures ParseVessels(a + b) == Combine(ParseVessels(a), ParseVessels(b))
    decreases |a|
  {
    if |a| == 0 {
      assert a + b == b;
      match ParseVessels(b)
      case Success(t) => assert Tables([] + t.vessels, [] + t.owners) == t;
      case Failure(_) =>
    } else {
      assert (a + b)[0] == a[0];
      assert (a + b)[1..] == a[1..] + b;
      ParseVesselsAppend(a[1..], b);
      var entries := EntriesOf(a[0]);
      if entries.Success? {
        CombineAssociates(ParseEntries(entries.value), ParseVessels(a[1..]), ParseVessels(b));
      }
    }
  }

  /**
   An entry whose chosen source list is empty is not skipped and no default
   is substituted: the flattening raises `IndexError`, provided no earlier
   entry, and no earlier response, has already failed. Nothing is assumed of
   the responses after the one holding the entry: the loop never reaches them.
   */
  lemma EmptySourceIsFatal(responses: seq<Value>, n: nat, k: nat)
    requires n <= |responses|
    requires ResponsesHaveEntries(responses[..n])
    requires k < |AllEntries(responses[..n])|
    requires AllEntries(responses[..n])[k].Obj?
    requires Field(AllEntries(responses[..n])[k].fields, SourceKey(AllEntries(responses[..n])[k].fields)) == Arr([])
    requires forall j :: 0 <= j < k ==> ParseEntry(AllEntries(responses[..n])[j]).Success?
    ensures ParseVessels(responses) == Failure(IndexError)
  {
    var done := responses[..n];
    assert responses == done + responses[n..];
    ParseVesselsAppend(done, responses[n..]);
    ResponsesAreConcatenated(done);
    FirstFailingEntryDecides(AllEntries(done), k);
  }

  /**
   The response list `[{"entries": [{"registryInfo": []}]}, {}]` raises
   `IndexError`: the missing count keeps the registry record, whose list is
   empty, before the second response is looked at.
   */
  lemma EmptyRegistryExample()
    ensures ParseVessels([Obj(map["entries" := Arr([Obj(map["registryInfo" := Arr([])])])]), Obj(map[])])
            == Failure(IndexError)
  {
    var entry := Obj(map["registryInfo" := Arr([])]);
    var responses := [Obj(map["entries" := Arr([entry])]), Obj(map[])];
    assert responses[..1] == [responses[0]];
    assert AllEntries([responses[0]]) == [entry] by {
      assert [responses[0]][1..] == [];
    }
    EmptySourceIsFatal(responses, 1, 0);
  }

  /** The owner rows of two entry lists one after the other are the two lists' owner rows, concatenated. */
  lemma {:induction false} AllOwnersAppend(a: seq<Value>, b: seq<Value>)
    ensures AllOwners(a + b) == AllOwners(a) + AllOwners(b)
    decreases |a|
  {
    if |a| == 0 {
      assert a + b == b;
    } else {
      assert (a + b)[0] == a[0];
      assert (a + b)[1..] == a[1..] + b;
      AllOwnersAppend(a[1..], b);
    }
  }

  /** An entry whose `registryOwners` is an empty list adds no owner rows, wherever it stands. */
  lemma EmptyOwnersAddNothing(a: seq<Value>, e: Value, b: seq<Value>)
    requires e.Obj? && Field(e.fields, "registryOwners") == Arr([])
    ensures AllOwners(a + [e] + b) == AllOwners(a) + AllOwners(b)
  {
    assert OwnerRows(e) == [] by {
      assert OwnersOf(e) == Items(Arr([]));
    }
    assert AllOwners([e]) == [] by {
      assert [e][1..] == [];
      assert AllOwners([e]) == OwnerRows(e) + AllOwners([]);
    }
    var front := a + [e];
    AllOwnersAppend(a, [e]);
    assert AllOwners(front) == AllOwners(a) + [];
    assert AllOwners(a) + [] == AllOwners(a);
    AllOwnersAppend(front, b);
  }

  /** Entries whose `registryOwners` lists are all empty add no owner rows. */
  lemma {:induction false} AllEmptyOwners(entries: seq<Value>)
    requires forall j :: 0 <= j < |entries| ==> entries[j].Obj? && Field(entries[j].fields, "registryOwners") == Arr([])
    ensures AllOwners(entries) == []
    decreases |entries|
  {
    if |entries| > 0 {
      assert forall j :: 0 <= j < |entries| - 1 ==> entries[1..][j] == entries[j + 1];
      AllEmptyOwners(entries[1..]);
    }
  }

  /** How one entry's record is chosen, case by case. */
  lemma RecordChoice(fields: map<string, Value>)
    ensures "registryInfoTotalRecords" !in fields ==> SourceKey(fields) == "registryInfo"
    ensures Field(fields, "registryInfoTotalRecords") == Num(0) ==> SourceKey(fields) == "selfReportedInfo"
    ensures Field(fields, "registryInfoTotalRecords").Num? && Field(fields, "registryInfoTotalRecords").n != 0 ==>
              SourceKey(fields) == "registryInfo"
    ensures Field(fields, "registryInfoTotalRecords") == Null ==> SourceKey(fields) == "registryInfo"
    ensures Field(fields, SourceKey(fields)) == Arr([]) ==> PickVessel(Obj(fields)) == Failure(IndexError)
    ensures Field(fields, SourceKey(fields)).Arr? && |Field(fields, SourceKey(fields)).items| > 0 ==>
              PickVessel(Obj(fields)) == Success(Field(fields, SourceKey(fields)).items[0])
  {
  }
}
