/** The OpenStack floating-IP extensions: floating-IP pools, floating-IP
    addresses, and the requests and status checks of the driver mixins that
    list, pick, create, delete, attach and detach them. */
module OpenStackExtensions {
  import opened Wrappers
  import opened Strings
  import opened PyValues
  import opened HttpStatus

  /** `OpenStack_1_1_FloatingIpPool`; its connection is not modelled. */
  datatype FloatingIpPool = FloatingIpPool(name: Value)

  /** What an address's `pool` attribute can hold: a pool, or the driver
      with the floating-IP extension (which its own methods pass there). */
  datatype Holder = PoolHolder(pool: FloatingIpPool) | ExtensionHolder

  /** `OpenStack_1_1_FloatingIpAddress`; `hasDriver` says whether its
      `driver` attribute is set (only the extension driver is ever passed). */
  datatype FloatingIpAddress = FloatingIpAddress(id: string, ipAddress: Value, pool: Option<Holder>,
                                                 nodeId: Value, hasDriver: bool)

  /** The constructor: the id is stored as a string. */
  function NewFloatingIpAddress(id: Value, ipAddress: Value, pool: Option<Holder>, nodeId: Value,
                                hasDriver: bool): (a: FloatingIpAddress)
    ensures a.id == PyStr(id)
    ensures a.ipAddress == ipAddress && a.pool == pool && a.nodeId == nodeId && a.hasDriver == hasDriver
  {
    FloatingIpAddress(PyStr(id), ipAddress, pool, nodeId, hasDriver)
  }

  /** A numeric id survives its conversion to a string. */
  lemma NumericIdReadBack(id: int, ipAddress: Value, pool: Option<Holder>, nodeId: Value, hasDriver: bool)
    ensures ParseInt(NewFloatingIpAddress(Int(id), ipAddress, pool, nodeId, hasDriver).id) == Some(id)
  {
    IntToStringRoundTrip(id);
  }

  /** A request handed to the connection. */
  datatype ComputeRequest = ComputeRequest(action: string, verb: string, data: Value)

  const LIST_REQUEST: ComputeRequest := ComputeRequest("/os-floating-ips", "GET", Null)

  // ---------------------------------------------------------------------
  // Listing and picking

  /** `_to_floating_ip` of a pool (and, as written, of the extension
      mixin): the holder is stored as the address's pool, the driver is
      left unset. */
  function ToFloatingIp(holder: Holder, obj: Value): (r: Outcome<FloatingIpAddress>)
    ensures r.Success? <==>
      obj.Dict? && "id" in obj.entries && "ip" in obj.entries && "instance_id" in obj.entries
    ensures r.Success? ==>
      r.value == NewFloatingIpAddress(obj.entries["id"], obj.entries["ip"], Some(holder),
                                      obj.entries["instance_id"], false)
  {
    var id :- Lookup(obj, "id");
    var ip :- Lookup(obj, "ip");
    var instanceId :- Lookup(obj, "instance_id");
    Success(NewFloatingIpAddress(id, ip, Some(holder), instanceId, false))
  }

  /** `_to_floating_ip` of the extension mixin as it was evidently meant:
      the driver is stored as the address's driver, the pool left unset. */
  function CorrectedExtensionToFloatingIp(obj: Value): (r: Outcome<FloatingIpAddress>)
    ensures r.Success? <==>
      obj.Dict? && "id" in obj.entries && "ip" in obj.entries && "instance_id" in obj.entries
    ensures r.Success? ==>
      r.value == NewFloatingIpAddress(obj.entries["id"], obj.entries["ip"], None, obj.entries["instance_id"], true)
  {
    var id :- Lookup(obj, "id");
    var ip :- Lookup(obj, "ip");
    var instanceId :- Lookup(obj, "instance_id");
    Success(NewFloatingIpAddress(id, ip, None, instanceId, true))
  }

  /** `obj[key]`, iterated: the list held there (or nothing for an empty
      dictionary or string). */
  function ListedElements(obj: Value, key: string): (r: Outcome<seq<Value>>)
    ensures r.Success? <==> Lookup(obj, key).Success? && SubscriptableElements(obj.entries[key]).Success?
    ensures obj.Dict? && key in obj.entries && obj.entries[key].List? ==> r == Success(obj.entries[key].items)
    ensures obj.Dict? && key !in obj.entries ==> r == Failure(KeyError(key))
  {
    var elements :- Lookup(obj, key);
    SubscriptableElements(elements)
  }

  /** `_to_floating_ips` with the given element conversion: it succeeds
      exactly when every element of `floating_ips` converts, and then holds
      one address per element, in order. */
  function FloatingIpsOf(convert: Value -> Outcome<FloatingIpAddress>, obj: Value): (r: Outcome<seq<FloatingIpAddress>>)
    ensures r.Success? <==>
      ListedElements(obj, "floating_ips").Success? &&
      forall i :: 0 <= i < |ListedElements(obj, "floating_ips").value| ==>
        convert(ListedElements(obj, "floating_ips").value[i]).Success?
    ensures r.Success? ==>
      |r.value| == |ListedElements(obj, "floating_ips").value| &&
      forall i :: 0 <= i < |r.value| ==> r.value[i] == convert(ListedElements(obj, "floating_ips").value[i]).value
  {
    var items :- ListedElements(obj, "floating_ips");
    MapAllSpec(convert, items);
    MapAll(convert, items)
  }

  /** `OpenStack_1_1_FloatingIpPool.list_floating_ips`; `reply` is the
      decoded reply to `LIST_REQUEST`. Every listed address is in the
      pool and has no driver. */
  function PoolFloatingIps(pool: FloatingIpPool, reply: Value): (r: Outcome<seq<FloatingIpAddress>>)
    ensures r.Success? ==> forall i :: 0 <= i < |r.value| ==> r.value[i].pool == Some(PoolHolder(pool)) && !r.value[i].hasDriver
  {
    FloatingIpsOf(v => ToFloatingIp(PoolHolder(pool), v), reply)
  }

  /** `ex_list_floating_ips` as written: every listed address holds the
      mixin as its pool and has no driver. */
  function ExtensionFloatingIps(reply: Value): (r: Outcome<seq<FloatingIpAddress>>)
    ensures r.Success? ==> forall i :: 0 <= i < |r.value| ==> r.value[i].pool == Some(ExtensionHolder) && !r.value[i].hasDriver
  {
    FloatingIpsOf(v => ToFloatingIp(ExtensionHolder, v), reply)
  }

  /** `ex_list_floating_ips` with the corrected element conversion: every
      listed address has the driver set and no pool. */
  function CorrectedExtensionFloatingIps(reply: Value): (r: Outcome<seq<FloatingIpAddress>>)
    ensures r.Success? ==> forall i :: 0 <= i < |r.value| ==> r.value[i].pool == None && r.value[i].hasDriver
  {
    FloatingIpsOf(CorrectedExtensionToFloatingIp, reply)
  }

  /** A listing reply: a dictionary whose `key` entry is the list `items`. */
  predicate IsListing(reply: Value, key: string, items: seq<Value>) {
    reply.Dict? && key in reply.entries && reply.entries[key] == List(items)
  }

  /** One address per listed element, in order, each in `pool`. */
  lemma PoolFloatingIpsSpec(pool: FloatingIpPool, reply: Value, items: seq<Value>)
    requires IsListing(reply, "floating_ips", items)
    ensures PoolFloatingIps(pool, reply).Success? <==>
      forall i :: 0 <= i < |items| ==> ToFloatingIp(PoolHolder(pool), items[i]).Success?
    ensures PoolFloatingIps(pool, reply).Success? ==>
      |PoolFloatingIps(pool, reply).value| == |items| &&
      forall i :: 0 <= i < |items| ==>
        PoolFloatingIps(pool, reply).value[i] == ToFloatingIp(PoolHolder(pool), items[i]).value
  {
    assert ListedElements(reply, "floating_ips") == Success(items);
  }

  /** As written, one address per listed element, in order, each holding
      the mixin as its pool. */
  lemma ExtensionFloatingIpsSpec(reply: Value, items: seq<Value>)
    requires IsListing(reply, "floating_ips", items)
    ensures ExtensionFloatingIps(reply).Success? <==>
      forall i :: 0 <= i < |items| ==> ToFloatingIp(ExtensionHolder, items[i]).Success?
    ensures ExtensionFloatingIps(reply).Success? ==>
      |ExtensionFloatingIps(reply).value| == |items| &&
      forall i :: 0 <= i < |items| ==>
        ExtensionFloatingIps(reply).value[i] == ToFloatingIp(ExtensionHolder, items[i]).value
  {
    assert ListedElements(reply, "floating_ips") == Success(items);
  }

  /** Corrected, one address per listed element, in order, each with the
      driver set. */
  lemma CorrectedExtensionFloatingIpsSpec(reply: Value, items: seq<Value>)
    requires IsListing(reply, "floating_ips", items)
    ensures CorrectedExtensionFloatingIps(reply).Success? <==>
      forall i :: 0 <= i < |items| ==> CorrectedExtensionToFloatingIp(items[i]).Success?
    ensures CorrectedExtensionFloatingIps(reply).Success? ==>
      |CorrectedExtensionFloatingIps(reply).value| == |items| &&
      forall i :: 0 <= i < |items| ==>
        CorrectedExtensionFloatingIps(reply).value[i] == CorrectedExtensionToFloatingIp(items[i]).value
  {
    assert ListedElements(reply, "floating_ips") == Success(items);
  }

  predicate HasAddress(ips: seq<FloatingIpAddress>, i: int, ip: Value) {
    0 <= i < |ips| && ips[i].ipAddress == ip
  }

  /** `[x for x in ips if x.ip_address == ip]`. */
  function Matching(ips: seq<FloatingIpAddress>, ip: Value): (r: seq<FloatingIpAddress>)
    ensures forall x :: x in r ==> x in ips && x.ipAddress == ip
    ensures forall x :: x in ips && x.ipAddress == ip ==> x in r
    ensures (forall j :: 0 <= j < |ips| ==> !HasAddress(ips, j, ip)) ==> r == []
  {
    if ips == [] then []
    else if ips[0].ipAddress == ip then
      assert HasAddress(ips, 0, ip);
      [ips[0]] + Matching(ips[1..], ip)
    else
      assert forall j :: 0 <= j < |ips| - 1 ==> HasAddress(ips[1..], j, ip) ==> HasAddress(ips, j + 1, ip);
      Matching(ips[1..], ip)
  }

  /** `ip_obj, = matches`: unpacking needs exactly one element. */
  function SelectUnique(ips: seq<FloatingIpAddress>, ip: Value): (r: Outcome<FloatingIpAddress>)
    ensures r.Success? ==> r.value in ips && r.value.ipAddress == ip
    ensures r.Failure? ==> r.error.ValueError?
  {
    var matches := Matching(ips, ip);
    if |matches| == 1 then Success(matches[0])
    else if matches == [] then Failure(ValueError("need more than 0 values to unpack"))
    else Failure(ValueError("too many values to unpack"))
  }

  lemma {:induction false} MatchingSingle(ips: seq<FloatingIpAddress>, ip: Value, i: int)
    requires HasAddress(ips, i, ip)
    requires forall j :: HasAddress(ips, j, ip) ==> j == i
    ensures Matching(ips, ip) == [ips[i]]
  {
    if i == 0 {
      assert forall j :: 0 <= j < |ips| - 1 ==> !HasAddress(ips[1..], j, ip) by {
        forall j | 0 <= j < |ips| - 1
          ensures !HasAddress(ips[1..], j, ip)
        {
          if HasAddress(ips[1..], j, ip) {
            assert HasAddress(ips, j + 1, ip);
          }
        }
      }
    } else {
      assert !HasAddress(ips, 0, ip);
      forall j | HasAddress(ips[1..], j, ip)
        ensures j == i - 1
      {
        assert HasAddress(ips, j + 1, ip);
      }
      MatchingSingle(ips[1..], ip, i - 1);
    }
  }

  lemma {:induction false} MatchingTwo(ips: seq<FloatingIpAddress>, ip: Value, i: int, j: int)
    requires HasAddress(ips, i, ip) && HasAddress(ips, j, ip) && i < j
    ensures |Matching(ips, ip)| >= 2
  {
    if i == 0 {
      assert ips[j] in ips[1..] && ips[j].ipAddress == ip;
      assert Matching(ips[1..], ip) != [];
    } else {
      assert HasAddress(ips[1..], i - 1, ip) && HasAddress(ips[1..], j - 1, ip);
      MatchingTwo(ips[1..], ip, i - 1, j - 1);
    }
  }

  /** `get_floating_ip` / `ex_get_floating_ip` succeed exactly when one
      listed address equals `ip`, and then return that address. */
  lemma SelectUniqueSpec(ips: seq<FloatingIpAddress>, ip: Value)
    ensures SelectUnique(ips, ip).Success? <==>
      exists i :: HasAddress(ips, i, ip) && forall j :: HasAddress(ips, j, ip) ==> j == i
    ensures forall i :: HasAddress(ips, i, ip) && (forall j :: HasAddress(ips, j, ip) ==> j == i) ==>
      SelectUnique(ips, ip) == Success(ips[i])
    ensures (forall i :: !HasAddress(ips, i, ip)) ==>
      SelectUnique(ips, ip) == Failure(ValueError("need more than 0 values to unpack"))
  {
    forall i | HasAddress(ips, i, ip) && (forall j :: HasAddress(ips, j, ip) ==> j == i)
      ensures SelectUnique(ips, ip) == Success(ips[i])
    {
      MatchingSingle(ips, ip, i);
    }
    if SelectUnique(ips, ip).Success? {
      var matches := Matching(ips, ip);
      assert matches[0] in matches;
      var i :| 0 <= i < |ips| && ips[i] == matches[0];
      assert HasAddress(ips, i, ip);
      forall j | HasAddress(ips, j, ip)
        ensures j == i
      {
        if j < i {
          MatchingTwo(ips, ip, j, i);
        } else if i < j {
          MatchingTwo(ips, ip, i, j);
        }
      }
    }
  }

  /** `OpenStack_1_1_FloatingIpPool.get_floating_ip`: a listing failure
      propagates; a picked address has the requested address, is one of
      the listed ones and is in the pool. */
  function PoolGetFloatingIp(pool: FloatingIpPool, reply: Value, ip: Value): (r: Outcome<FloatingIpAddress>)
    ensures PoolFloatingIps(pool, reply).Failure? ==> r == Failure(PoolFloatingIps(pool, reply).error)
    ensures r.Success? ==>
      r.value.ipAddress == ip && r.value in PoolFloatingIps(pool, reply).value && r.value.pool == Some(PoolHolder(pool))
  {
    var ips :- PoolFloatingIps(pool, reply);
    SelectUnique(ips, ip)
  }

  /** `ex_get_floating_ip` as written: a picked address has the requested
      address, is one of the listed ones, and holds the mixin as its pool. */
  function ExtensionGetFloatingIp(reply: Value, ip: Value): (r: Outcome<FloatingIpAddress>)
    ensures ExtensionFloatingIps(reply).Failure? ==> r == Failure(ExtensionFloatingIps(reply).error)
    ensures r.Success? ==>
      r.value.ipAddress == ip && r.value in ExtensionFloatingIps(reply).value &&
      r.value.pool == Some(ExtensionHolder) && !r.value.hasDriver
  {
    var ips :- ExtensionFloatingIps(reply);
    SelectUnique(ips, ip)
  }

  /** `ex_get_floating_ip` over the corrected listing: the picked address
      has the driver set and no pool. */
  function CorrectedExtensionGetFloatingIp(reply: Value, ip: Value): (r: Outcome<FloatingIpAddress>)
    ensures CorrectedExtensionFloatingIps(reply).Failure? ==> r == Failure(CorrectedExtensionFloatingIps(reply).error)
    ensures r.Success? ==>
      r.value.ipAddress == ip && r.value in CorrectedExtensionFloatingIps(reply).value &&
      r.value.pool == None && r.value.hasDriver
  {
    var ips :- CorrectedExtensionFloatingIps(reply);
    SelectUnique(ips, ip)
  }

  // ---------------------------------------------------------------------
  // Creating and deleting

  /** The creation request: a pool names itself, the extension sends an
      empty body. */
  function CreateRequest(holder: Holder): (q: ComputeRequest)
    ensures q.action == "/os-floating-ips" && q.verb == "POST"
    ensures holder.PoolHolder? ==> q.data == Dict(map["pool" := holder.pool.name])
    ensures holder.ExtensionHolder? ==> q.data == Dict(map[])
  {
    match holder
    case PoolHolder(pool) => ComputeRequest("/os-floating-ips", "POST", Dict(map["pool" := pool.name]))
    case ExtensionHolder => ComputeRequest("/os-floating-ips", "POST", Dict(map[]))
  }

  /** `create_floating_ip` of a pool (and, as written, of the extension):
      the new address has the `id` and `ip` of the reply's `floating_ip`,
      no node, and the creator as its pool. */
  function CreatedFloatingIp(holder: Holder, reply: Value): (r: Outcome<FloatingIpAddress>)
    ensures r.Success? <==>
      (Lookup(reply, "floating_ip").Success? &&
       Lookup(reply.entries["floating_ip"], "id").Success? && Lookup(reply.entries["floating_ip"], "ip").Success?)
    ensures r.Success? ==>
      && r.value.id == PyStr(reply.entries["floating_ip"].entries["id"])
      && r.value.ipAddress == reply.entries["floating_ip"].entries["ip"]
      && r.value.pool == Some(holder) && r.value.nodeId == Null && !r.value.hasDriver
  {
    var data :- Lookup(reply, "floating_ip");
    var id :- Lookup(data, "id");
    var ip :- Lookup(data, "ip");
    Success(NewFloatingIpAddress(id, ip, Some(holder), Null, false))
  }

  /** `ex_create_floating_ip` as it was evidently meant: the same address,
      with the driver stored as its driver and no pool. */
  function CorrectedExtensionCreatedFloatingIp(reply: Value): (r: Outcome<FloatingIpAddress>)
    ensures r.Success? <==>
      (Lookup(reply, "floating_ip").Success? &&
       Lookup(reply.entries["floating_ip"], "id").Success? && Lookup(reply.entries["floating_ip"], "ip").Success?)
    ensures r.Success? ==>
      && r.value.id == PyStr(reply.entries["floating_ip"].entries["id"])
      && r.value.ipAddress == reply.entries["floating_ip"].entries["ip"]
      && r.value.pool == None && r.value.nodeId == Null && r.value.hasDriver
  {
    var data :- Lookup(reply, "floating_ip");
    var id :- Lookup(data, "id");
    var ip :- Lookup(data, "ip");
    Success(NewFloatingIpAddress(id, ip, None, Null, true))
  }

  function DeleteRequest(ip: FloatingIpAddress): ComputeRequest {
    ComputeRequest("/os-floating-ips/" + ip.id, "DELETE", Null)
  }

  /** `delete_floating_ip` / `ex_delete_floating_ip`: 204 and 202 both
      mean deleted. */
  function DeleteSucceeded(status: int): (deleted: bool)
    ensures deleted <==> status == NO_CONTENT || status == ACCEPTED
    ensures deleted ==> 200 <= status < 300
  {
    status == NO_CONTENT || status == ACCEPTED
  }

  /** Whose delete method `OpenStack_1_1_FloatingIpAddress.delete` calls. */
  datatype DeleteCall = ByPool(holder: Holder) | ByDriver | NoCall

  /** The pool when one is set, else the driver when one is set, else
      nothing. */
  function DeleteDispatch(ip: FloatingIpAddress): (c: DeleteCall)
    ensures ip.pool.Some? <==> c.ByPool?
    ensures c.ByPool? ==> c.holder == ip.pool.value
    ensures c == ByDriver <==> ip.pool.None? && ip.hasDriver
    ensures c == NoCall <==> ip.pool.None? && !ip.hasDriver
  {
    if ip.pool.Some? then ByPool(ip.pool.value)
    else if ip.hasDriver then ByDriver
    else NoCall
  }

  /** What `delete()` sends and returns given the status of the reply:
      nothing and `None` without pool and driver; a pool's or the driver's
      delete request otherwise. The extension mixin has no
      `delete_floating_ip`, so an address holding the driver as its pool
      raises AttributeError. */
  function Delete(ip: FloatingIpAddress, status: int): (r: (seq<ComputeRequest>, Option<Outcome<bool>>))
    ensures DeleteDispatch(ip) == NoCall <==> r.1 == None
    ensures DeleteDispatch(ip) == ByPool(ExtensionHolder) <==> r.1 == Some(Failure(AttributeError("delete_floating_ip")))
    ensures DeleteDispatch(ip).ByDriver? || (DeleteDispatch(ip).ByPool? && DeleteDispatch(ip).holder.PoolHolder?) ==>
      r == ([DeleteRequest(ip)], Some(Success(DeleteSucceeded(status))))
    ensures r.0 != [] ==> r.0 == [DeleteRequest(ip)]
  {
    match DeleteDispatch(ip)
    case ByPool(PoolHolder(_)) => ([DeleteRequest(ip)], Some(Success(DeleteSucceeded(status))))
    case ByPool(ExtensionHolder) => ([], Some(Failure(AttributeError("delete_floating_ip"))))
    case ByDriver => ([DeleteRequest(ip)], Some(Success(DeleteSucceeded(status))))
    case NoCall => ([], None)
  }

  /** As written, an address listed, picked or created by the extension
      mixin cannot be deleted through `delete()`: whatever the service
      would answer, the call raises before any request. */
  lemma ExtensionAddressNotDeletable(listing: Value, ip: Value, reply: Value, status: int)
    ensures ExtensionFloatingIps(listing).Success? ==>
      forall i :: 0 <= i < |ExtensionFloatingIps(listing).value| ==>
        Delete(ExtensionFloatingIps(listing).value[i], status) == ([], Some(Failure(AttributeError("delete_floating_ip"))))
    ensures ExtensionGetFloatingIp(listing, ip).Success? ==>
      Delete(ExtensionGetFloatingIp(listing, ip).value, status) == ([], Some(Failure(AttributeError("delete_floating_ip"))))
    ensures CreatedFloatingIp(ExtensionHolder, reply).Success? ==>
      Delete(CreatedFloatingIp(ExtensionHolder, reply).value, status) == ([], Some(Failure(AttributeError("delete_floating_ip"))))
  {
  }

  /** With the corrected conversions the same addresses are deleted through
      the driver: one delete request, and success exactly on 204 or 202. */
  lemma CorrectedExtensionAddressDeletable(listing: Value, ip: Value, reply: Value, status: int)
    ensures CorrectedExtensionFloatingIps(listing).Success? ==>
      forall i :: 0 <= i < |CorrectedExtensionFloatingIps(listing).value| ==>
        Delete(CorrectedExtensionFloatingIps(listing).value[i], status)
          == ([DeleteRequest(CorrectedExtensionFloatingIps(listing).value[i])],
              Some(Success(status == NO_CONTENT || status == ACCEPTED)))
    ensures CorrectedExtensionGetFloatingIp(listing, ip).Success? ==>
      Delete(CorrectedExtensionGetFloatingIp(listing, ip).value, status)
        == ([DeleteRequest(CorrectedExtensionGetFloatingIp(listing, ip).value)],
            Some(Success(status == NO_CONTENT || status == ACCEPTED)))
    ensures CorrectedExtensionCreatedFloatingIp(reply).Success? ==>
      Delete(CorrectedExtensionCreatedFloatingIp(reply).value, status)
        == ([DeleteRequest(CorrectedExtensionCreatedFloatingIp(reply).value)],
            Some(Success(status == NO_CONTENT || status == ACCEPTED)))
  {
  }

  // ---------------------------------------------------------------------
  // Attaching and detaching

  /** The `ip` argument: an address object, or a plain value taken to be
      the address itself. */
  datatype IpArgument = AddressArgument(address: FloatingIpAddress) | PlainArgument(value: Value)

  /** `ip.ip_address if hasattr(ip, 'ip_address') else ip`. */
  function AddressOf(ip: IpArgument): Value {
    match ip
    case AddressArgument(address) => address.ipAddress
    case PlainArgument(value) => value
  }

  /** The server action that adds (`addFloatingIp`) or removes
      (`removeFloatingIp`) the address. */
  function ActionRequest(key: string, nodeId: Value, ip: IpArgument): ComputeRequest {
    ComputeRequest("/servers/" + PyStr(nodeId) + "/action", "POST",
                   Dict(map[key := Dict(map["address" := AddressOf(ip)])]))
  }

  /** `ex_attach_floating_ip_to_node`: the request, and whether the reply
      status means attached (202 only). */
  function Attach(nodeId: Value, ip: IpArgument, status: int): (r: (ComputeRequest, bool))
    ensures r.0.verb == "POST" && r.0.action == "/servers/" + PyStr(nodeId) + "/action"
    ensures r.0.data.Dict? && r.0.data.entries.Keys == {"addFloatingIp"}
    ensures r.0.data.entries["addFloatingIp"] == Dict(map["address" := AddressOf(ip)])
    ensures r.1 <==> status == ACCEPTED
  {
    (ActionRequest("addFloatingIp", nodeId, ip), status == ACCEPTED)
  }

  /** `ex_detach_floating_ip_from_node`. */
  function Detach(nodeId: Value, ip: IpArgument, status: int): (r: (ComputeRequest, bool))
    ensures r.0.verb == "POST" && r.0.action == "/servers/" + PyStr(nodeId) + "/action"
    ensures r.0.data.Dict? && r.0.data.entries.Keys == {"removeFloatingIp"}
    ensures r.0.data.entries["removeFloatingIp"] == Dict(map["address" := AddressOf(ip)])
    ensures r.1 <==> status == ACCEPTED
  {
    (ActionRequest("removeFloatingIp", nodeId, ip), status == ACCEPTED)
  }

  /** An address object and its bare address make the same request, and
      attaching and detaching differ only in the action's key. */
  lemma AttachDetachAgree(nodeId: Value, address: FloatingIpAddress, status: int)
    ensures Attach(nodeId, AddressArgument(address), status) == Attach(nodeId, PlainArgument(address.ipAddress), status)
    ensures Detach(nodeId, AddressArgument(address), status) == Detach(nodeId, PlainArgument(address.ipAddress), status)
    ensures Attach(nodeId, AddressArgument(address), status).0.action == Detach(nodeId, AddressArgument(address), status).0.action
    ensures Attach(nodeId, AddressArgument(address), status).1 == Detach(nodeId, AddressArgument(address), status).1
    ensures Attach(nodeId, AddressArgument(address), status).0.data.entries["addFloatingIp"]
         == Detach(nodeId, AddressArgument(address), status).0.data.entries["removeFloatingIp"]
  {
  }

  // ---------------------------------------------------------------------
  // Pools

  /** `_to_floating_ip_pool`. */
  function ToFloatingIpPool(obj: Value): (r: Outcome<FloatingIpPool>)
    ensures r.Success? <==> obj.Dict? && "name" in obj.entries
    ensures r.Success? ==> r.value.name == obj.entries["name"]
  {
    var name :- Lookup(obj, "name");
    Success(FloatingIpPool(name))
  }

  /** `_to_floating_ip_pools`: it succeeds exactly when every element of
      `floating_ip_pools` converts, and then holds one pool per element, in
      order, named by the element's `name`. */
  function FloatingIpPoolsOf(obj: Value): (r: Outcome<seq<FloatingIpPool>>)
    ensures r.Success? <==>
      ListedElements(obj, "floating_ip_pools").Success? &&
      forall i :: 0 <= i < |ListedElements(obj, "floating_ip_pools").value| ==>
        ToFloatingIpPool(ListedElements(obj, "floating_ip_pools").value[i]).Success?
    ensures r.Success? ==>
      |r.value| == |ListedElements(obj, "floating_ip_pools").value| &&
      forall i :: 0 <= i < |r.value| ==>
        r.value[i] == ToFloatingIpPool(ListedElements(obj, "floating_ip_pools").value[i]).value
  {
    var items :- ListedElements(obj, "floating_ip_pools");
    MapAllSpec(ToFloatingIpPool, items);
    MapAll(ToFloatingIpPool, items)
  }

  /** One pool per listed element, in order, named as listed. */
  lemma FloatingIpPoolsSpec(reply: Value, items: seq<Value>)
    requires IsListing(reply, "floating_ip_pools", items)
    ensures FloatingIpPoolsOf(reply).Success? <==>
      forall i :: 0 <= i < |items| ==> ToFloatingIpPool(items[i]).Success?
    ensures FloatingIpPoolsOf(reply).Success? ==>
      |FloatingIpPoolsOf(reply).value| == |items| &&
      forall i :: 0 <= i < |items| ==> FloatingIpPoolsOf(reply).value[i].name == items[i].entries["name"]
  {
    assert ListedElements(reply, "floating_ip_pools") == Success(items);
  }
}
