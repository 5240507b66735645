/**
 * Link collection: the rendering script turns the `consumes` map found at
 * `properties.bosh_containerization.consumes` of the evaluation context into
 * the list of links handed to the template engine
 * (rb/template_evaluation_context.rb, lines 35-58).
 *
 * The script's two loops are the methods BuildLinksFrom (over the pairs of
 * `consumes`) and BuildInstances (over the instances of one link), with
 * BuildLink for one pass of the outer loop and BuildLinks for the whole
 * collection; each is proved equal to a recursive function (LinksFrom,
 * InstanceRecords, LinkFor, CollectLinks) that threads Ruby's exceptions in
 * the same order, and the lemmas below state what those functions promise:
 * which links exist, in which order, and that every field is copied verbatim.
 */
module Links {
  import opened Values

  /** The keyword arguments the script gives `InstanceSpec.new` for one instance of a link. */
  datatype LinkInstance = LinkInstance(
    address: Value, az: Value, bootstrap: Value, id: Value, index: Value, name: Value)

  /** The keyword arguments the script gives `Link.new`. */
  datatype Link = Link(name: string, address: Value, instances: seq<LinkInstance>, properties: Value)

  /**
   * `properties && properties['bosh_containerization'] && ...['consumes']`:
   * None when a level is nil or false, otherwise the `consumes` value.
   */
  function ConsumesDeclaration(contextHash: Value): (r: Result<Option<Value>>)
    ensures r.Ok? && r.value.Some? ==> Truthy(r.value.value)
    ensures contextHash.Str? ==> r == Ok(None)
    ensures contextHash.Nil? || contextHash.Bool? ==> r == Err(NoMethodError("[]"))
    ensures contextHash.Int? || contextHash.List? ==> r == Err(TypeError)
  {
    var properties :- Fetch(contextHash, "properties");
    if !Truthy(properties) then Ok(None) else
    var containerization :- Fetch(properties, "bosh_containerization");
    if !Truthy(containerization) then Ok(None) else
    var consumes :- Fetch(containerization, "consumes");
    if !Truthy(consumes) then Ok(None) else Ok(Some(consumes))
  }

  /** One instance of a link, its six fields read from `item` in the script's order. */
  function InstanceRecord(item: Value): (r: Result<LinkInstance>)
    ensures r.Ok? <==> item.Hash? || item.Str?
    ensures item.Hash? ==> r.value == LinkInstance(
      Get(item.entries, "address"), Get(item.entries, "az"), Get(item.entries, "bootstrap"),
      Get(item.entries, "id"), Get(item.entries, "index"), Get(item.entries, "name"))
  {
    var address :- Fetch(item, "address");
    // once the first read succeeds `item` is a Hash or a String, and so do the other five
    Ok(LinkInstance(address, Fetch(item, "az").value, Fetch(item, "bootstrap").value,
      Fetch(item, "id").value, Fetch(item, "index").value, Fetch(item, "name").value))
  }

  /** The records of `items`, in order; the first item that cannot be read stops the loop. */
  function InstanceRecords(items: seq<Value>): (r: Result<seq<LinkInstance>>)
    ensures r.Ok? ==> |r.value| == |items|
  {
    if items == [] then Ok([])
    else
      var first :- InstanceRecord(items[0]);
      var rest :- InstanceRecords(items[1..]);
      Ok([first] + rest)
  }

  /** One pass of the `each_pair` block: None when it reaches `next`. */
  function LinkFor(name: string, declaration: Value): (r: Result<Option<Link>>)
    ensures r.Ok? ==> declaration.Hash?
    ensures r.Ok? && r.value.Some? ==> r.value.value.name == name && r.value.value.instances != []
  {
    var instances :- Fetch(declaration, "instances");
    var empty :- IsEmpty(instances);
    if empty then Ok(None) else
    var items :- EachElements(instances);
    var records :- InstanceRecords(items);
    // `declaration` answered `[]` above, so these two reads cannot raise
    Ok(Some(Link(name, Fetch(declaration, "address").value, records,
      Fetch(declaration, "properties").value)))
  }

  function Listed<T>(o: Option<T>): seq<T> {
    if o.Some? then [o.value] else []
  }

  /** The links built from the pairs of `consumes`, in enumeration order. */
  function LinksFrom(consumes: seq<(string, Value)>): (r: Result<seq<Link>>)
    ensures r.Ok? ==> |r.value| <= |consumes|
  {
    if consumes == [] then Ok([])
    else
      var link :- LinkFor(consumes[0].0, consumes[0].1);
      var rest :- LinksFrom(consumes[1..]);
      Ok(Listed(link) + rest)
  }

  /** The `links` array the script hands the template engine, or the exception it raises. */
  function CollectLinks(contextHash: Value): (r: Result<seq<Link>>)
    ensures r.Ok? ==> contextHash.Hash? || contextHash.Str?
    ensures contextHash.Str? ==> r == Ok([])
    ensures contextHash.Nil? || contextHash.Bool? ==> r == Err(NoMethodError("[]"))
    ensures contextHash.Int? || contextHash.List? ==> r == Err(TypeError)
  {
    var consumes :- ConsumesDeclaration(contextHash);
    match consumes
    case None => Ok([])
    case Some(Hash(entries)) => LinksFrom(entries)
    case Some(_) => Err(NoMethodError("each_pair"))
  }

  /** A pass of the inner loop that reads its instance keeps its invariant. */
  lemma RecordsLoopStep(items: seq<Value>, instances: seq<LinkInstance>, j: int, record: LinkInstance)
    requires 0 <= j < |items|
    requires InstanceRecords(items) == Prepend(instances, InstanceRecords(items[j..]))
    requires InstanceRecord(items[j]) == Ok(record)
    ensures InstanceRecords(items) == Prepend(instances + [record], InstanceRecords(items[j + 1..]))
  {
    var tail := items[j..];
    assert tail[0] == items[j] && tail[1..] == items[j + 1..];
    assert InstanceRecords(tail) == Prepend([record], InstanceRecords(tail[1..]));
    PrependTwice(instances, [record], InstanceRecords(items[j + 1..]));
  }

  /** A pass of the inner loop that raises ends the loop with that exception. */
  lemma RecordsLoopStop(items: seq<Value>, instances: seq<LinkInstance>, j: int, e: Error)
    requires 0 <= j < |items|
    requires InstanceRecords(items) == Prepend(instances, InstanceRecords(items[j..]))
    requires InstanceRecord(items[j]) == Err(e)
    ensures InstanceRecords(items) == Err(e)
  {
    assert items[j..][0] == items[j];
  }

  /** The inner loop: `link['instances'].each { |link_instance| instances << ... }`. */
  method BuildInstances(items: seq<Value>) returns (r: Result<seq<LinkInstance>>)
    ensures r == InstanceRecords(items)
  {
    var instances: seq<LinkInstance> := [];
    var j := 0;
    assert items[j..] == items;
    PrependNothing(InstanceRecords(items));
    while j < |items|
      invariant 0 <= j <= |items|
      invariant InstanceRecords(items) == Prepend(instances, InstanceRecords(items[j..]))
    {
      var step := InstanceRecord(items[j]);
      if step.Err? {
        RecordsLoopStop(items, instances, j, step.error);
        return Err(step.error);
      }
      RecordsLoopStep(items, instances, j, step.value);
      instances := instances + [step.value];
      j := j + 1;
    }
    assert items[j..] == [] && instances + [] == instances;
    return Ok(instances);
  }

  /** The body of the `each_pair` block for one declared link; None where it reaches `next`. */
  method BuildLink(name: string, declaration: Value) returns (r: Result<Option<Link>>)
    ensures r == LinkFor(name, declaration)
  {
    var instancesValue :- Fetch(declaration, "instances");
    var empty :- IsEmpty(instancesValue);
    if empty {
      return Ok(None);
    }
    var items :- EachElements(instancesValue);
    var instances :- BuildInstances(items);
    var address := Fetch(declaration, "address").value;
    var properties := Fetch(declaration, "properties").value;
    return Ok(Some(Link(name, address, instances, properties)));
  }

  /** A pass of the outer loop that does not raise keeps its invariant. */
  lemma LinksLoopStep(consumes: seq<(string, Value)>, links: seq<Link>, i: int, link: Option<Link>)
    requires 0 <= i < |consumes|
    requires LinksFrom(consumes) == Prepend(links, LinksFrom(consumes[i..]))
    requires LinkFor(consumes[i].0, consumes[i].1) == Ok(link)
    ensures LinksFrom(consumes) == Prepend(links + Listed(link), LinksFrom(consumes[i + 1..]))
  {
    var tail := consumes[i..];
    assert tail[0] == consumes[i] && tail[1..] == consumes[i + 1..];
    LinksFromUnfold(tail, link);
    PrependTwice(links, Listed(link), LinksFrom(consumes[i + 1..]));
  }

  /** The collection over pairs whose first pass yields `link`: that link, then the rest. */
  lemma LinksFromUnfold(consumes: seq<(string, Value)>, link: Option<Link>)
    requires consumes != [] && LinkFor(consumes[0].0, consumes[0].1) == Ok(link)
    ensures LinksFrom(consumes) == Prepend(Listed(link), LinksFrom(consumes[1..]))
  {
  }

  /** A pass of the outer loop that raises ends the whole collection with that exception. */
  lemma LinksLoopStop(consumes: seq<(string, Value)>, links: seq<Link>, i: int, e: Error)
    requires 0 <= i < |consumes|
    requires LinksFrom(consumes) == Prepend(links, LinksFrom(consumes[i..]))
    requires LinkFor(consumes[i].0, consumes[i].1) == Err(e)
    ensures LinksFrom(consumes) == Err(e)
  {
    assert consumes[i..][1..] == consumes[i + 1..];
  }

  /** The outer loop: `consumes.each_pair { |name, link| ... links << Link.new(...) }`. */
  method BuildLinksFrom(consumes: seq<(string, Value)>) returns (r: Result<seq<Link>>)
    ensures r == LinksFrom(consumes)
  {
    var links: seq<Link> := [];
    var i := 0;
    assert consumes[i..] == consumes;
    assert LinksFrom(consumes).Ok? ==> links + LinksFrom(consumes).value == LinksFrom(consumes).value;
    while i < |consumes|
      invariant 0 <= i <= |consumes|
      invariant LinksFrom(consumes) == Prepend(links, LinksFrom(consumes[i..]))
    {
      var step := BuildLink(consumes[i].0, consumes[i].1);
      if step.Err? {
        LinksLoopStop(consumes, links, i, step.error);
        return Err(step.error);
      }
      LinksLoopStep(consumes, links, i, step.value);
      links := links + Listed(step.value);
      i := i + 1;
    }
    assert consumes[i..] == [] && links + [] == links;
    return Ok(links);
  }

  /** Lines 35-58: no links unless the whole `consumes` path is present. */
  method BuildLinks(contextHash: Value) returns (r: Result<seq<Link>>)
    ensures r == CollectLinks(contextHash)
  {
    var declared :- ConsumesDeclaration(contextHash);
    if declared.None? {
      return Ok([]);
    }
    if !declared.value.Hash? {
      return Err(NoMethodError("each_pair"));
    }
    r := BuildLinksFrom(declared.value.entries);
  }

  // ----- What the collection promises -----

  /** Whether the script gets through one `each_pair` pass over `declaration` without raising. */
  predicate Acceptable(declaration: Value) {
    && declaration.Hash?
    && var instances := Get(declaration.entries, "instances");
       || instances == Hash([])
       || instances == Str([])
       || (instances.List? && forall item :: item in instances.items ==> item.Hash? || item.Str?)
  }

  /** Whether `declaration` lists at least one instance. */
  predicate HasInstances(declaration: Value) {
    && declaration.Hash?
    && var instances := Get(declaration.entries, "instances");
       instances.List? && instances.items != []
  }

  /** A declared link as a value: its name, address, one record per listed instance, and properties. */
  function DeclaredLink(name: string, declaration: Value): Link
    requires Acceptable(declaration) && HasInstances(declaration)
  {
    var items := Get(declaration.entries, "instances").items;
    Link(name, Get(declaration.entries, "address"),
      seq(|items|, k requires 0 <= k < |items| => InstanceRecord(items[k]).value),
      Get(declaration.entries, "properties"))
  }

  predicate AllAcceptable(consumes: seq<(string, Value)>) {
    forall j :: 0 <= j < |consumes| ==> Acceptable(consumes[j].1)
  }

  /** Filter, then map: every pair of `consumes` that lists instances, as a link, in order. */
  function DeclaredLinks(consumes: seq<(string, Value)>): seq<Link>
    requires AllAcceptable(consumes)
  {
    if consumes == [] then []
    else
      (if HasInstances(consumes[0].1) then [DeclaredLink(consumes[0].0, consumes[0].1)] else [])
      + DeclaredLinks(consumes[1..])
  }

  /** The records keep the number and the order of the listed instances, each copied field by field. */
  lemma {:induction false} InstanceRecordsCorrespond(items: seq<Value>)
    ensures InstanceRecords(items).Ok? <==> forall k :: 0 <= k < |items| ==> items[k].Hash? || items[k].Str?
    ensures InstanceRecords(items).Ok? ==>
      var records := InstanceRecords(items).value;
      |records| == |items| && forall k :: 0 <= k < |items| ==> InstanceRecord(items[k]) == Ok(records[k])
  {
    if items != [] {
      InstanceRecordsCorrespond(items[1..]);
      assert forall k :: 1 <= k < |items| ==> items[1..][k - 1] == items[k];
    }
  }

  /** One pass succeeds exactly for an acceptable declaration, and then yields the declared link or skips. */
  lemma LinkForCharacterized(name: string, declaration: Value)
    ensures LinkFor(name, declaration).Ok? <==> Acceptable(declaration)
    ensures Acceptable(declaration) ==>
      LinkFor(name, declaration) ==
        Ok(if HasInstances(declaration) then Some(DeclaredLink(name, declaration)) else None)
  {
    if declaration.Hash? {
      var instances := Get(declaration.entries, "instances");
      if instances.List? {
        InstanceRecordsCorrespond(instances.items);
        if Acceptable(declaration) && HasInstances(declaration) {
          var records := InstanceRecords(instances.items).value;
          assert records == DeclaredLink(name, declaration).instances;
        }
      } else if instances.Hash? && instances.entries != [] {
        var pairs := EachElements(instances).value;
        assert InstanceRecord(pairs[0]).Err?;
      }
    } else if declaration.Str? {
      var instances := Fetch(declaration, "instances").value;
      assert instances == Nil || instances == Str("instances");
    }
  }

  /**
   * The collection raises exactly when some declaration is not acceptable;
   * otherwise it is the declared links, filtered and in enumeration order.
   */
  lemma {:induction false} LinksFromCharacterized(consumes: seq<(string, Value)>)
    ensures LinksFrom(consumes).Ok? <==> AllAcceptable(consumes)
    ensures AllAcceptable(consumes) ==> LinksFrom(consumes) == Ok(DeclaredLinks(consumes))
  {
    if consumes != [] {
      var tail := consumes[1..];
      LinkForCharacterized(consumes[0].0, consumes[0].1);
      LinksFromCharacterized(tail);
      assert AllAcceptable(consumes) <==> Acceptable(consumes[0].1) && AllAcceptable(tail) by {
        assert forall j :: 1 <= j < |consumes| ==> tail[j - 1] == consumes[j];
      }
      match LinkFor(consumes[0].0, consumes[0].1)
      case Err(e) =>
        LinksFromStops(consumes, e);
      case Ok(link) =>
        LinksFromUnfold(consumes, link);
        if AllAcceptable(consumes) {
          DeclaredLinksUnfold(consumes);
        }
    }
  }

  /** A declaration without an `instances` entry makes the pass raise NoMethodError for `nil.empty?`. */
  lemma MissingInstancesRaises(name: string, declaration: Value)
    requires declaration.Hash? && "instances" !in Keys(declaration.entries)
    ensures LinkFor(name, declaration) == Err(NoMethodError("empty?"))
    ensures LinksFrom([(name, declaration)]) == Err(NoMethodError("empty?"))
  {
    LinksFromStops([(name, declaration)], NoMethodError("empty?"));
  }

  /** A declaration with an empty instance list passes the checks and yields no link. */
  lemma SkippedDeclaration(name: string, declaration: Value)
    requires declaration.Hash?
    requires Get(declaration.entries, "instances") in {List([]), Hash([]), Str([])}
    ensures LinkFor(name, declaration) == Ok(None)
  {
  }

  /** A link whose instance list is empty is skipped: the result is as if it had not been declared. */
  lemma {:induction false} EmptyInstancesAsUndeclared(
    before: seq<(string, Value)>, name: string, declaration: Value, after: seq<(string, Value)>)
    requires declaration.Hash?
    requires Get(declaration.entries, "instances") in {List([]), Hash([]), Str([])}
    ensures LinksFrom(before + [(name, declaration)] + after) == LinksFrom(before + after)
  {
    var whole := before + [(name, declaration)] + after;
    var shorter := before + after;
    if before == [] {
      assert whole == [(name, declaration)] + after;
      assert shorter == after;
      SkippedFirst(name, declaration, after);
    } else {
      assert whole[0] == before[0] && whole[1..] == before[1..] + [(name, declaration)] + after;
      assert shorter[0] == before[0] && shorter[1..] == before[1..] + after;
      EmptyInstancesAsUndeclared(before[1..], name, declaration, after);
      SameFirstPass(whole, shorter);
    }
  }

  /** A first declaration with empty instances leaves the rest to decide. */
  lemma SkippedFirst(name: string, declaration: Value, after: seq<(string, Value)>)
    requires declaration.Hash?
    requires Get(declaration.entries, "instances") in {List([]), Hash([]), Str([])}
    ensures LinksFrom([(name, declaration)] + after) == LinksFrom(after)
  {
    var whole := [(name, declaration)] + after;
    assert whole[0] == (name, declaration) && whole[1..] == after;
    SkippedDeclaration(name, declaration);
    LinksFromUnfold(whole, None);
    PrependNothing(LinksFrom(after));
  }

  /** Two enumerations with the same first pair, whose rests collect alike, collect alike. */
  lemma SameFirstPass(one: seq<(string, Value)>, other: seq<(string, Value)>)
    requires one != [] && other != [] && one[0] == other[0]
    requires LinksFrom(one[1..]) == LinksFrom(other[1..])
    ensures LinksFrom(one) == LinksFrom(other)
  {
    match LinkFor(one[0].0, one[0].1)
    case Err(e) =>
      LinksFromStops(one, e);
      LinksFromStops(other, e);
    case Ok(link) =>
      LinksFromUnfold(one, link);
      LinksFromUnfold(other, link);
  }

  /** A first pass that raises ends the collection with that exception. */
  lemma LinksFromStops(consumes: seq<(string, Value)>, e: Error)
    requires consumes != [] && LinkFor(consumes[0].0, consumes[0].1) == Err(e)
    ensures LinksFrom(consumes) == Err(e)
  {
  }

  lemma TailKeepsRequirements(consumes: seq<(string, Value)>)
    requires consumes != []
    ensures UniqueKeys(consumes) ==> UniqueKeys(consumes[1..])
    ensures AllAcceptable(consumes) ==> AllAcceptable(consumes[1..])
  {
    assert forall m :: 0 <= m < |consumes[1..]| ==> consumes[1..][m] == consumes[m + 1];
  }

  /** With distinct keys, no link built after the first pair carries the first key. */
  lemma NoLaterLinkNamed(consumes: seq<(string, Value)>)
    requires consumes != [] && UniqueKeys(consumes) && AllAcceptable(consumes)
    ensures AllAcceptable(consumes[1..])
    ensures forall k :: 0 <= k < |DeclaredLinks(consumes[1..])| ==>
      DeclaredLinks(consumes[1..])[k].name != consumes[0].0
  {
    var tail := consumes[1..];
    TailKeepsRequirements(consumes);
    var later := DeclaredLinks(tail);
    LinkNamesFromKeys(tail);
    forall k | 0 <= k < |later|
      ensures later[k].name != consumes[0].0
    {
      assert later[k] in later;
      var m :| 0 <= m < |tail| && Keys(tail)[m] == later[k].name;
      assert tail[m] == consumes[m + 1];
    }
  }

  /** The links of `links` carrying `name`, in order. */
  function LinksNamed(links: seq<Link>, name: string): seq<Link> {
    if links == [] then []
    else (if links[0].name == name then [links[0]] else []) + LinksNamed(links[1..], name)
  }

  lemma {:induction false} LinksNamedConcat(a: seq<Link>, b: seq<Link>, name: string)
    ensures LinksNamed(a + b, name) == LinksNamed(a, name) + LinksNamed(b, name)
  {
    if a != [] {
      assert (a + b)[0] == a[0] && (a + b)[1..] == a[1..] + b;
      LinksNamedConcat(a[1..], b, name);
    } else {
      assert a + b == b;
    }
  }

  lemma {:induction false} LinksNamedNone(links: seq<Link>, name: string)
    requires forall k :: 0 <= k < |links| ==> links[k].name != name
    ensures LinksNamed(links, name) == []
  {
    if links != [] {
      LinksNamedNone(links[1..], name);
    }
  }

  /** The declared links: the link of the first pair, if any, then those of the rest. */
  lemma DeclaredLinksUnfold(consumes: seq<(string, Value)>)
    requires consumes != [] && AllAcceptable(consumes)
    ensures AllAcceptable(consumes[1..])
    ensures DeclaredLinks(consumes) ==
      (if HasInstances(consumes[0].1) then [DeclaredLink(consumes[0].0, consumes[0].1)] else [])
      + DeclaredLinks(consumes[1..])
  {
    TailKeepsRequirements(consumes);
  }

  /**
   * With the keys of `consumes` distinct (as in any Ruby Hash), each key names
   * exactly one link when its declaration lists instances, the declared one,
   * and no link otherwise.
   */
  lemma {:induction false} DeclaredLinkByName(consumes: seq<(string, Value)>, j: int)
    requires UniqueKeys(consumes) && AllAcceptable(consumes)
    requires 0 <= j < |consumes|
    ensures LinksNamed(DeclaredLinks(consumes), consumes[j].0) ==
      if HasInstances(consumes[j].1) then [DeclaredLink(consumes[j].0, consumes[j].1)] else []
  {
    var name := consumes[j].0;
    var tail := consumes[1..];
    TailKeepsRequirements(consumes);
    DeclaredLinksUnfold(consumes);
    var head := if HasInstances(consumes[0].1) then [DeclaredLink(consumes[0].0, consumes[0].1)] else [];
    var later := DeclaredLinks(tail);
    LinksNamedConcat(head, later, name);
    if j == 0 {
      NoLaterLinkNamed(consumes);
      LinksNamedNone(later, name);
      assert head != [] ==> head[1..] == [];
    } else {
      DeclaredLinkByName(tail, j - 1);
      assert tail[j - 1] == consumes[j];
      assert consumes[0].0 != name;
      assert head != [] ==> head[1..] == [];
    }
  }

  /** Every link is named by a key of `consumes`. */
  lemma {:induction false} LinkNamesFromKeys(consumes: seq<(string, Value)>)
    requires AllAcceptable(consumes)
    ensures forall link :: link in DeclaredLinks(consumes) ==> link.name in Keys(consumes)
  {
    if consumes != [] {
      var tail := consumes[1..];
      TailKeepsRequirements(consumes);
      LinkNamesFromKeys(tail);
      assert Keys(consumes) == [consumes[0].0] + Keys(tail);
    }
  }

  /** Without the full `consumes` path the script builds no links. */
  lemma AbsentConsumesGivesNoLinks(contextHash: Value)
    requires contextHash.Hash?
    requires var properties := Get(contextHash.entries, "properties");
      || properties == Nil
      || (&& properties.Hash?
          && var containerization := Get(properties.entries, "bosh_containerization");
             || containerization == Nil
             || (containerization.Hash? && Get(containerization.entries, "consumes") == Nil))
    ensures CollectLinks(contextHash) == Ok([])
  {
  }

  /**
   * A context that holds `consumes` at `properties.bosh_containerization`
   * hands the engine the links built from its pairs: exactly the declared
   * links when every declaration is acceptable, the first exception
   * otherwise. A truthy `consumes` that is not a Hash has no `each_pair`.
   */
  lemma ConsumesPresent(contextHash: Value, consumes: Value)
    requires contextHash.Hash?
    requires var properties := Get(contextHash.entries, "properties");
      && properties.Hash?
      && var containerization := Get(properties.entries, "bosh_containerization");
         && containerization.Hash?
         && Get(containerization.entries, "consumes") == consumes
    requires Truthy(consumes)
    ensures consumes.Hash? ==> CollectLinks(contextHash) == LinksFrom(consumes.entries)
    ensures consumes.Hash? ==> (CollectLinks(contextHash).Ok? <==> AllAcceptable(consumes.entries))
    ensures consumes.Hash? && AllAcceptable(consumes.entries) ==>
      CollectLinks(contextHash) == Ok(DeclaredLinks(consumes.entries))
    ensures !consumes.Hash? ==> CollectLinks(contextHash) == Err(NoMethodError("each_pair"))
  {
    assert ConsumesDeclaration(contextHash) == Ok(Some(consumes));
    if consumes.Hash? {
      CollectDeclared(contextHash, consumes.entries);
      LinksFromCharacterized(consumes.entries);
    }
  }

  /**
   * The context of the link tests: one provider, `myprovider`, with one
   * instance and an exported property. The Go caller serializes maps with
   * their keys sorted.
   */
  function ProviderInstance(): (v: Value)
    ensures v.Hash? && UniqueKeys(v.entries)
  {
    Hash([
      ("address", Str("link.domain.foo")),
      ("az", Str("linkaz")),
      ("id", Str("11nk1d")),
      ("index", Int(11)),
      ("name", Str("linkedjob"))])
  }

  function ProviderDeclaration(): (v: Value)
    ensures v.Hash? && UniqueKeys(v.entries)
  {
    Hash([
      ("instances", List([ProviderInstance()])),
      ("properties", Hash([("exported", Str("toaster"))]))])
  }

  /** The provider's one instance becomes one record; `bootstrap`, absent, is nil. */
  lemma ProviderRecord()
    ensures InstanceRecord(ProviderInstance()) == Ok(LinkInstance(
      Str("link.domain.foo"), Str("linkaz"), Nil, Str("11nk1d"), Int(11), Str("linkedjob")))
  {
    var entries := ProviderInstance().entries;
    assert "bootstrap" !in Keys(entries);
    GetStored(entries, 0);
    GetStored(entries, 1);
    GetStored(entries, 2);
    GetStored(entries, 3);
    GetStored(entries, 4);
  }

  /** A declaration listing one readable instance yields one link holding that instance's record. */
  lemma SingleInstanceLink(name: string, declaration: Value, item: Value)
    requires declaration.Hash? && Get(declaration.entries, "instances") == List([item])
    requires item.Hash?
    ensures LinkFor(name, declaration) == Ok(Some(Link(name, Get(declaration.entries, "address"),
      [InstanceRecord(item).value], Get(declaration.entries, "properties"))))
  {
    assert Acceptable(declaration) && HasInstances(declaration);
    LinkForCharacterized(name, declaration);
    assert DeclaredLink(name, declaration).instances == [InstanceRecord(item).value];
  }

  /** The declared provider yields one link, named by its key, with no address and its properties as given. */
  lemma ProviderLink()
    ensures LinkFor("myprovider", ProviderDeclaration()) == Ok(Some(Link(
      "myprovider", Nil,
      [LinkInstance(Str("link.domain.foo"), Str("linkaz"), Nil, Str("11nk1d"), Int(11), Str("linkedjob"))],
      Hash([("exported", Str("toaster"))]))))
  {
    var declaration := ProviderDeclaration();
    var entries := declaration.entries;
    assert "address" !in Keys(entries);
    GetStored(entries, 0);
    GetStored(entries, 1);
    ProviderRecord();
    SingleInstanceLink("myprovider", declaration, ProviderInstance());
  }

  /** A context that declares a Hash `consumes` collects the links of its pairs. */
  lemma CollectDeclared(contextHash: Value, entries: seq<(string, Value)>)
    requires ConsumesDeclaration(contextHash) == Ok(Some(Hash(entries)))
    ensures CollectLinks(contextHash) == LinksFrom(entries)
  {
  }

  /** A context that nests a truthy `consumes` at the expected path declares it. */
  lemma NestedConsumes(consumes: Value)
    requires Truthy(consumes)
    ensures ConsumesDeclaration(Hash([("properties", Hash([("bosh_containerization",
      Hash([("consumes", consumes)]))]))])) == Ok(Some(consumes))
  {
  }

  /** A single declaration that yields a link gives exactly that link. */
  lemma SingleDeclaration(name: string, declaration: Value, link: Link)
    requires LinkFor(name, declaration) == Ok(Some(link))
    ensures LinksFrom([(name, declaration)]) == Ok([link])
  {
    var consumes := [(name, declaration)];
    assert consumes[1..] == [];
    assert LinksFrom(consumes[1..]) == Ok([]);
    assert Listed(Some(link)) + [] == [link];
  }

  /** The link tests' evaluation context, serialized by the Go caller. */
  function ProviderContext(): Value {
    Hash([("properties", Hash([("bosh_containerization", Hash([("consumes",
      Hash([("myprovider", ProviderDeclaration())]))]))]))])
  }

  /** The script hands the engine exactly the provider's link. */
  lemma ProviderContextLinks()
    ensures CollectLinks(ProviderContext()) == Ok([Link(
      "myprovider", Nil,
      [LinkInstance(Str("link.domain.foo"), Str("linkaz"), Nil, Str("11nk1d"), Int(11), Str("linkedjob"))],
      Hash([("exported", Str("toaster"))]))])
  {
    var declaration := ProviderDeclaration();
    var consumes := Hash([("myprovider", declaration)]);
    var link := Link(
      "myprovider", Nil,
      [LinkInstance(Str("link.domain.foo"), Str("linkaz"), Nil, Str("11nk1d"), Int(11), Str("linkedjob"))],
      Hash([("exported", Str("toaster"))]));
    NestedConsumes(consumes);
    ProviderLink();
    SingleDeclaration("myprovider", declaration, link);
    CollectDeclared(ProviderContext(), consumes.entries);
  }
}
