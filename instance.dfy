/**
 * The descriptor of the instance being rendered (`spec` in a template): eight
 * fields read from the instance information as they are, plus a `networks`
 * entry holding one network, "default", built from the instance's ip and
 * address.
 */
module Instance {
  import opened Values

  /** The instance descriptor handed to the template engine. */
  datatype InstanceSpec = InstanceSpec(
    address: Value,
    az: Value,
    bootstrap: Value,
    deployment: Value,
    id: Value,
    index: Value,
    ip: Value,
    name: Value,
    networks: Value)

  /** The `networks` Hash: a single entry "default" holding the ip and the DNS record name. */
  function DefaultNetworks(ip: Value, address: Value): (networks: Value)
    ensures networks.Hash? && Keys(networks.entries) == ["default"]
    ensures var default := Get(networks.entries, "default");
      && default.Hash?
      && Keys(default.entries) == ["ip", "dns_record_name"]
      && Get(default.entries, "ip") == ip
      && Get(default.entries, "dns_record_name") == address
  {
    var default := Hash([("ip", ip), ("dns_record_name", address)]);
    assert Keys(default.entries) == ["ip", "dns_record_name"];
    Hash([("default", default)])
  }

  /**
   * The descriptor built from the loaded instance information, or the exception
   * raised reading it. From a Hash, every field is the value stored under its
   * own key (nil where the key is missing), `bootstrap` included: nothing is
   * derived from another field, and `networks` repeats the ip and the address.
   */
  function BuildInstanceSpec(info: Value): (r: Result<InstanceSpec>)
    ensures r.Ok? <==> info.Hash? || info.Str?
    ensures info.Hash? ==>
      && r.value.address == Get(info.entries, "address")
      && r.value.az == Get(info.entries, "az")
      && r.value.bootstrap == Get(info.entries, "bootstrap")
      && r.value.deployment == Get(info.entries, "deployment")
      && r.value.id == Get(info.entries, "id")
      && r.value.index == Get(info.entries, "index")
      && r.value.ip == Get(info.entries, "ip")
      && r.value.name == Get(info.entries, "name")
    ensures r.Ok? ==> r.value.networks == DefaultNetworks(r.value.ip, r.value.address)
    ensures info.Int? || info.List? ==> r == Err(TypeError)
    ensures info.Nil? || info.Bool? ==> r == Err(NoMethodError("[]"))
  {
    var address :- Fetch(info, "address");
    // `info` answered `[]` above, so the remaining reads cannot raise
    var ip := Fetch(info, "ip").value;
    Ok(InstanceSpec(
      address,
      Fetch(info, "az").value,
      Fetch(info, "bootstrap").value,
      Fetch(info, "deployment").value,
      Fetch(info, "id").value,
      Fetch(info, "index").value,
      ip,
      Fetch(info, "name").value,
      DefaultNetworks(ip, address)))
  }

  /** The runtime information the Go caller serializes for the script. */
  datatype InstanceInfo = InstanceInfo(
    address: string,
    az: string,
    deployment: string,
    id: string,
    index: int,
    ip: string,
    name: string)

  /** The YAML document the Go caller writes: one key per struct field, each key once. */
  function InstanceInfoDocument(info: InstanceInfo): (document: Value)
    ensures document.Hash? && UniqueKeys(document.entries)
    ensures |document.entries| == 7
    ensures "bootstrap" !in Keys(document.entries)
  {
    Hash([
      ("address", Str(info.address)),
      ("az", Str(info.az)),
      ("deployment", Str(info.deployment)),
      ("id", Str(info.id)),
      ("index", Int(info.index)),
      ("ip", Str(info.ip)),
      ("name", Str(info.name))])
  }

  /**
   * For an instance described by the Go caller, the descriptor carries its
   * fields unchanged, and `bootstrap` is nil: the caller never sends one and
   * the script does not derive it from the index.
   */
  lemma DescriptorOfCallerInstance(info: InstanceInfo)
    ensures BuildInstanceSpec(InstanceInfoDocument(info)) == Ok(InstanceSpec(
      Str(info.address), Str(info.az), Nil, Str(info.deployment), Str(info.id),
      Int(info.index), Str(info.ip), Str(info.name),
      DefaultNetworks(Str(info.ip), Str(info.address))))
  {
    var entries := InstanceInfoDocument(info).entries;
    assert "bootstrap" !in Keys(entries);
    GetStored(entries, 0);
    GetStored(entries, 1);
    GetStored(entries, 2);
    GetStored(entries, 3);
    GetStored(entries, 4);
    GetStored(entries, 5);
    GetStored(entries, 6);
  }
}
