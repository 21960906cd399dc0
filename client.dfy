/**
 * The response-handling core of `OlaAsyncClient`: the registry of push callbacks
 * for DMX updates, the level codec loops, the handlers that turn a finished RPC
 * into exactly one callback invocation, and the reply-type guards in front of them.
 *
 * The RPC channel is not modelled: a finished call is given as the controller's
 * flags (a `Controller`) and the reply message, and each handler returns the one
 * invocation it makes of the user's callback instead of making it.
 */
module Client {
  import opened Outcomes
  import opened JavaLang
  import opened Codec
  import opened Status
  import opened Ports
  import opened Universes
  import opened Devices
  import opened UidAddressing

  /** `RegisterAction`: whether `registerUniverse` subscribes or unsubscribes. */
  datatype RegisterAction = Register | Unregister

  /** A user's `OlaNewDataReceivedCallback`, known by its identity. */
  datatype PushCallback = PushCallback(handle: nat)

  /** The protocol records the handlers decode; their getters never return null. */
  datatype PluginInfo = PluginInfo(pluginId: Int32, name: string)

  datatype PortInfo = PortInfo(portId: Int32, universe: Int32, active: bool, description: string, supportsRdm: bool)

  datatype DeviceInfo = DeviceInfo(
    deviceId: string,
    deviceAlias: Int32,
    deviceName: string,
    pluginId: Int32,
    inputPorts: seq<PortInfo>,
    outputPorts: seq<PortInfo>)

  datatype UniverseInfo = UniverseInfo(universe: Int32, name: string, mergeMode: MergeMode)

  /** The reply messages the server sends back. */
  datatype Message =
    | PluginListReply(plugins: seq<PluginInfo>)
    | PluginDescriptionReply(description: string)
    | DeviceInfoReply(devices: seq<DeviceInfo>)
    | UniverseInfoReply(universes: seq<UniverseInfo>)
    | DmxData(universe: Int32, data: seq<JavaByte>)
    | DeviceConfigReply(data: seq<JavaByte>)
    | UidListReply(uids: seq<(Int32, Int32)>)
    | Ack

  /** A `BasicPlugin`: id and name. */
  datatype Plugin = Plugin(id: Int32, name: Option<string>)

  /** One call `callback.processUpdate(status, payload)`, a null payload being None. */
  datatype Invocation<T> = Invocation(status: RequestStatus, payload: Option<T>)

  /** One call `callback.Run(status, levels, universe)` of a DMX callback; levels as the array's contents. */
  datatype DmxInvocation = DmxInvocation(status: RequestStatus, levels: Option<seq<JavaShort>>, universe: int)

  /** What `updateDmxData` does: nothing, or one call of the registered callback followed by the ack. */
  datatype PushEffect = NotRegistered | Delivered(callback: PushCallback, levels: seq<JavaShort>)

  /**
   * The shape every handler's invocation has: the status derived from the
   * controller, and a payload exactly when that status is SUCCESS.
   */
  predicate Reports<T>(call: Invocation<T>, controller: Controller) {
    && call.status == FromController(controller)
    && (call.payload.Some? <==> Succeeded(call.status))
  }

  /** The port a `PortInfo` becomes: every field carried over. */
  function PortOf(info: PortInfo): (port: Port)
    ensures port.id == info.portId && port.universeId == info.universe
    ensures port.active == info.active && port.supportsRdm == info.supportsRdm
    ensures port.description == Some(info.description)
  {
    Port(info.portId, info.universe, info.active, Some(info.description), info.supportsRdm)
  }

  /** The ports a list of records gives, one per record, in order. */
  function PortsOf(infos: seq<PortInfo>): (ports: seq<Port>)
    ensures |ports| == |infos|
    ensures forall k :: 0 <= k < |infos| ==> ports[k] == PortOf(infos[k])
  {
    seq(|infos|, k requires 0 <= k < |infos| => PortOf(infos[k]))
  }

  /** A `BasicDevice` built from a record: every field carried over, each port list sorted by id. */
  ghost predicate DecodedFrom(device: BasicDevice, info: DeviceInfo)
    reads device.inputPorts, device.outputPorts
  {
    && device.id == info.deviceId
    && device.alias == info.deviceAlias
    && device.name == Some(info.deviceName)
    && device.pluginId == info.pluginId
    && device.inputPorts[..] == SortById(PortsOf(info.inputPorts))
    && device.outputPorts[..] == SortById(PortsOf(info.outputPorts))
    && device.Valid()
  }

  /** The universe a record becomes; the protocol's merge mode is never null, so this never throws. */
  function UniverseOf(info: UniverseInfo): (u: Universe)
    ensures NewUniverseWithMode(info.universe, Some(info.name), Some(info.mergeMode)) == Returned(u)
  {
    NewUniverseWithMode(info.universe, Some(info.name), Some(info.mergeMode)).value
  }

  /** `throwExceptionForInstanceOfFailure`: it always throws. */
  function InstanceOfFailure<T>(expected: string, actual: Option<Message>): (r: Outcome<T>)
    ensures r == Threw(IllegalArgumentException)
  {
    Threw(IllegalArgumentException)
  }

  class OlaAsyncClient {
    /** `universeCallbacks`: the push callback registered for each universe; a registered null is None. */
    var universeCallbacks: map<Int32, Option<PushCallback>>

    /** A new client starts with no push callbacks. */
    constructor()
      ensures universeCallbacks == map[]
    {
      universeCallbacks := map[];
    }

    /**
     * `registerUniverse`: a null action makes the request builder throw before the
     * registry is touched. Otherwise, after the request is sent, REGISTER maps the
     * universe to the callback, replacing any earlier one, and UNREGISTER removes
     * the universe's entry. The answer to the request reaches the caller through
     * `AckMessageComplete`.
     */
    method RegisterUniverse(universeId: Int32, action: Option<RegisterAction>, dataCallback: Option<PushCallback>)
      returns (r: Outcome<bool>)
      modifies this
      ensures action.None? ==> r == Threw(NullPointerException) && universeCallbacks == old(universeCallbacks)
      ensures action.Some? ==> r == Returned(true)
      ensures action == Some(Register) ==> universeCallbacks == old(universeCallbacks)[universeId := dataCallback]
      ensures action == Some(Unregister) ==> universeCallbacks == old(universeCallbacks) - {universeId}
    {
      if action.None? {
        return Threw(NullPointerException);
      }
      if action.value == Register {
        universeCallbacks := universeCallbacks[universeId := dataCallback];
      } else {
        universeCallbacks := universeCallbacks - {universeId};
      }
      return Returned(true);
    }

    /**
     * `updateDmxData`: pushed data for a universe with an entry goes, decoded, to
     * that entry's callback (a registered null throws); a universe without an
     * entry is ignored. The registry is left as it is.
     */
    method UpdateDmxData(universe: Int32, data: seq<JavaByte>) returns (r: Outcome<PushEffect>)
      ensures universe !in universeCallbacks ==> r == Returned(NotRegistered)
      ensures universe in universeCallbacks && universeCallbacks[universe].None? ==>
        r == Threw(NullPointerException)
      ensures universe in universeCallbacks && universeCallbacks[universe].Some? ==>
        r == Returned(Delivered(universeCallbacks[universe].value, DecodeLevels(data)))
    {
      if universe !in universeCallbacks {
        return Returned(NotRegistered);
      }
      var entry := universeCallbacks[universe];
      if entry.None? {
        return Threw(NullPointerException);
      }
      var levels := ConvertFromUnsigned(data);
      return Returned(Delivered(entry.value, levels[..]));
    }

    /** `convertToUnsigned`: each level narrowed to a byte, in order. */
    method ConvertToUnsigned(values: array<JavaShort>) returns (bytes: seq<JavaByte>)
      ensures bytes == EncodeLevels(values[..])
    {
      var unsigned := new JavaByte[values.Length];
      for i := 0 to values.Length
        invariant forall k :: 0 <= k < i ==> unsigned[k] == ByteCast(values[k])
      {
        unsigned[i] := ByteCast(values[i]);
      }
      bytes := unsigned[..];
    }

    /** `convertFromUnsigned`: a new array holding each byte zero-extended, in order. */
    method ConvertFromUnsigned(data: seq<JavaByte>) returns (signed: array<JavaShort>)
      ensures fresh(signed)
      ensures signed[..] == DecodeLevels(data)
    {
      signed := new JavaShort[|data|];
      for i := 0 to |data|
        invariant forall k :: 0 <= k < i ==> signed[k] == UnsignedValue(data[k])
      {
        signed[i] := UnsignedValue(data[i]);
      }
    }

    /** `pluginsComplete`: one plugin per record, in the reply's order. */
    method PluginsComplete(controller: Controller, plugins: seq<PluginInfo>) returns (call: Invocation<seq<Plugin>>)
      ensures Reports(call, controller)
      ensures call.payload.Some? ==> |call.payload.value| == |plugins|
      ensures call.payload.Some? ==> forall k :: 0 <= k < |plugins| ==>
        call.payload.value[k] == Plugin(plugins[k].pluginId, Some(plugins[k].name))
    {
      var status := FromController(controller);
      if !Succeeded(status) {
        return Invocation(status, None);
      }
      var pluginList: seq<Plugin> := [];
      for i := 0 to |plugins|
        invariant |pluginList| == i
        invariant forall k :: 0 <= k < i ==> pluginList[k] == Plugin(plugins[k].pluginId, Some(plugins[k].name))
      {
        pluginList := pluginList + [Plugin(plugins[i].pluginId, Some(plugins[i].name))];
      }
      return Invocation(status, Some(pluginList));
    }

    /** `pluginDescriptionComplete`: the description on success. */
    method PluginDescriptionComplete(controller: Controller, description: string) returns (call: Invocation<string>)
      ensures Reports(call, controller)
      ensures call.payload.Some? ==> call.payload.value == description
    {
      var status := FromController(controller);
      if !Succeeded(status) {
        return Invocation(status, None);
      }
      return Invocation(status, Some(description));
    }

    /** The port list a device's records give: `new Port(...)` appended per record. */
    method DecodePorts(infos: seq<PortInfo>) returns (ports: array<Port>)
      ensures fresh(ports)
      ensures ports[..] == PortsOf(infos)
    {
      ports := new Port[|infos|](_ => Port(0, 0, false, None, false));
      for i := 0 to |infos|
        invariant forall k :: 0 <= k < i ==> ports[k] == PortOf(infos[k])
      {
        ports[i] := PortOf(infos[i]);
      }
    }

    /** One device of a `DeviceInfoReply`, built with `new BasicDevice`. */
    method DecodeDevice(info: DeviceInfo) returns (device: BasicDevice)
      ensures fresh(device)
      ensures DecodedFrom(device, info)
    {
      var inputPorts := DecodePorts(info.inputPorts);
      var outputPorts := DecodePorts(info.outputPorts);
      device := new BasicDevice(info.deviceId, info.deviceAlias, Some(info.deviceName), info.pluginId,
                                inputPorts, outputPorts);
    }

    /** `deviceInfoComplete`: one device per record, in the reply's order. */
    method DeviceInfoComplete(controller: Controller, infos: seq<DeviceInfo>) returns (call: Invocation<seq<BasicDevice>>)
      ensures Reports(call, controller)
      ensures call.payload.Some? ==> |call.payload.value| == |infos|
      ensures call.payload.Some? ==> forall k :: 0 <= k < |infos| ==> DecodedFrom(call.payload.value[k], infos[k])
    {
      var status := FromController(controller);
      if !Succeeded(status) {
        return Invocation(status, None);
      }
      var deviceList: seq<BasicDevice> := [];
      for i := 0 to |infos|
        invariant |deviceList| == i
        invariant forall k :: 0 <= k < i ==> DecodedFrom(deviceList[k], infos[k])
      {
        var device := DecodeDevice(infos[i]);
        deviceList := deviceList + [device];
      }
      return Invocation(status, Some(deviceList));
    }

    /** `universeInfoComplete`: one universe per record, in the reply's order. */
    method UniverseInfoComplete(controller: Controller, infos: seq<UniverseInfo>) returns (call: Invocation<seq<Universe>>)
      ensures Reports(call, controller)
      ensures call.payload.Some? ==> |call.payload.value| == |infos|
      ensures call.payload.Some? ==> forall k :: 0 <= k < |infos| ==>
        call.payload.value[k] == Universe(infos[k].universe, Some(infos[k].name), infos[k].mergeMode)
    {
      var status := FromController(controller);
      if !Succeeded(status) {
        return Invocation(status, None);
      }
      var universeList: seq<Universe> := [];
      for i := 0 to |infos|
        invariant |universeList| == i
        invariant forall k :: 0 <= k < i ==>
          universeList[k] == Universe(infos[k].universe, Some(infos[k].name), infos[k].mergeMode)
      {
        universeList := universeList + [UniverseOf(infos[i])];
      }
      return Invocation(status, Some(universeList));
    }

    /** `dmxComplete`: the decoded levels and their universe on success; null and universe -1 otherwise. */
    method DmxComplete(controller: Controller, universe: Int32, data: seq<JavaByte>) returns (call: DmxInvocation)
      ensures call.status == FromController(controller)
      ensures !Succeeded(call.status) ==> call.levels == None && call.universe == -1
      ensures Succeeded(call.status) ==> call.levels == Some(DecodeLevels(data)) && call.universe == universe
    {
      var status := FromController(controller);
      if !Succeeded(status) {
        return DmxInvocation(status, None, -1);
      }
      var levels := ConvertFromUnsigned(data);
      return DmxInvocation(status, Some(levels[..]), universe);
    }

    /** `ackMessageComplete`: `true` on success. */
    method AckMessageComplete(controller: Controller) returns (call: Invocation<bool>)
      ensures Reports(call, controller)
      ensures call.payload.Some? ==> call.payload.value
    {
      var status := FromController(controller);
      if !Succeeded(status) {
        return Invocation(status, None);
      }
      return Invocation(status, Some(true));
    }

    /**
     * `configureDeviceComplete`: the decoded reply data on success. A null reply
     * is only read on success, where it throws.
     */
    method ConfigureDeviceComplete(controller: Controller, response: Option<seq<JavaByte>>)
      returns (r: Outcome<Invocation<seq<JavaShort>>>)
      ensures !Succeeded(FromController(controller)) ==> r == Returned(Invocation(FromController(controller), None))
      ensures Succeeded(FromController(controller)) && response.None? ==> r == Threw(NullPointerException)
      ensures Succeeded(FromController(controller)) && response.Some? ==>
        r == Returned(Invocation(FromController(controller), Some(DecodeLevels(response.value))))
    {
      var status := FromController(controller);
      if !Succeeded(status) {
        return Returned(Invocation(status, None));
      }
      if response.None? {
        return Threw(NullPointerException);
      }
      var levels := ConvertFromUnsigned(response.value);
      return Returned(Invocation(status, Some(levels[..])));
    }

    /** `getUIDsComplete`: the reply is never decoded, so success always delivers an empty list. */
    method GetUidsComplete(controller: Controller, reply: Option<seq<(Int32, Int32)>>) returns (call: Invocation<seq<UID>>)
      ensures Reports(call, controller)
      ensures call.payload.Some? ==> call.payload.value == []
    {
      var status := FromController(controller);
      if !Succeeded(status) {
        return Invocation(status, None);
      }
      return Invocation(status, Some([]));
    }

    /** The reply callback of `getPlugins`: a reply of another type, or null, throws before any invocation. */
    method OnPluginsReply(controller: Controller, message: Option<Message>) returns (r: Outcome<Invocation<seq<Plugin>>>)
      ensures r.Returned? <==> message.Some? && message.value.PluginListReply?
      ensures r.Threw? ==> r.exception == IllegalArgumentException
      ensures r.Returned? ==> Reports(r.value, controller)
      ensures r.Returned? && r.value.payload.Some? ==> |r.value.payload.value| == |message.value.plugins|
      ensures r.Returned? && r.value.payload.Some? ==> forall k :: 0 <= k < |message.value.plugins| ==>
        r.value.payload.value[k] == Plugin(message.value.plugins[k].pluginId, Some(message.value.plugins[k].name))
    {
      if message.Some? && message.value.PluginListReply? {
        var call := PluginsComplete(controller, message.value.plugins);
        return Returned(call);
      }
      return Threw(IllegalArgumentException);
    }

    /** The reply callback of `getPluginDescription`. */
    method OnPluginDescriptionReply(controller: Controller, message: Option<Message>) returns (r: Outcome<Invocation<string>>)
      ensures r.Returned? <==> message.Some? && message.value.PluginDescriptionReply?
      ensures r.Threw? ==> r.exception == IllegalArgumentException
      ensures r.Returned? ==> Reports(r.value, controller)
      ensures r.Returned? && r.value.payload.Some? ==> r.value.payload.value == message.value.description
    {
      if message.Some? && message.value.PluginDescriptionReply? {
        var call := PluginDescriptionComplete(controller, message.value.description);
        return Returned(call);
      }
      return Threw(IllegalArgumentException);
    }

    /** The reply callback of `getDevices`. */
    method OnDevicesReply(controller: Controller, message: Option<Message>) returns (r: Outcome<Invocation<seq<BasicDevice>>>)
      ensures r.Returned? <==> message.Some? && message.value.DeviceInfoReply?
      ensures r.Threw? ==> r.exception == IllegalArgumentException
      ensures r.Returned? ==> Reports(r.value, controller)
      ensures r.Returned? && r.value.payload.Some? ==> |r.value.payload.value| == |message.value.devices|
      ensures r.Returned? && r.value.payload.Some? ==> forall k :: 0 <= k < |message.value.devices| ==>
        DecodedFrom(r.value.payload.value[k], message.value.devices[k])
    {
      if message.Some? && message.value.DeviceInfoReply? {
        var call := DeviceInfoComplete(controller, message.value.devices);
        return Returned(call);
      }
      return Threw(IllegalArgumentException);
    }

    /** The reply callback of `getUniverses`. */
    method OnUniversesReply(controller: Controller, message: Option<Message>) returns (r: Outcome<Invocation<seq<Universe>>>)
      ensures r.Returned? <==> message.Some? && message.value.UniverseInfoReply?
      ensures r.Threw? ==> r.exception == IllegalArgumentException
      ensures r.Returned? ==> Reports(r.value, controller)
      ensures r.Returned? && r.value.payload.Some? ==> |r.value.payload.value| == |message.value.universes|
      ensures r.Returned? && r.value.payload.Some? ==> forall k :: 0 <= k < |message.value.universes| ==>
        r.value.payload.value[k] == Universe(message.value.universes[k].universe, Some(message.value.universes[k].name),
                                            message.value.universes[k].mergeMode)
    {
      if message.Some? && message.value.UniverseInfoReply? {
        var call := UniverseInfoComplete(controller, message.value.universes);
        return Returned(call);
      }
      return Threw(IllegalArgumentException);
    }

    /** The reply callback of `getDmx`, which throws through `throwExceptionForInstanceOfFailure`. */
    method OnDmxReply(controller: Controller, message: Option<Message>) returns (r: Outcome<DmxInvocation>)
      ensures r.Returned? <==> message.Some? && message.value.DmxData?
      ensures r.Threw? ==> r.exception == IllegalArgumentException
      ensures r.Returned? ==> r.value.status == FromController(controller)
      ensures r.Returned? && !Succeeded(r.value.status) ==> r.value.levels == None && r.value.universe == -1
      ensures r.Returned? && Succeeded(r.value.status) ==>
        r.value.levels == Some(DecodeLevels(message.value.data)) && r.value.universe == message.value.universe
    {
      if message.Some? && message.value.DmxData? {
        var call := DmxComplete(controller, message.value.universe, message.value.data);
        return Returned(call);
      }
      return InstanceOfFailure("DmxData", message);
    }

    /**
     * The reply callback of `configureDevice`: an unchecked cast, so a reply of
     * another type throws `ClassCastException` and a null reply goes through.
     */
    method OnDeviceConfigReply(controller: Controller, message: Option<Message>)
      returns (r: Outcome<Invocation<seq<JavaShort>>>)
      ensures message.Some? && !message.value.DeviceConfigReply? ==> r == Threw(ClassCastException)
      ensures message.None? && Succeeded(FromController(controller)) ==> r == Threw(NullPointerException)
      ensures message.None? && !Succeeded(FromController(controller)) ==>
        r == Returned(Invocation(FromController(controller), None))
      ensures message.Some? && message.value.DeviceConfigReply? ==> r.Returned? && Reports(r.value, controller)
      ensures message.Some? && message.value.DeviceConfigReply? && r.Returned? && r.value.payload.Some? ==>
        r.value.payload.value == DecodeLevels(message.value.data)
    {
      match message {
        case None =>
          r := ConfigureDeviceComplete(controller, None);
        case Some(DeviceConfigReply(data)) =>
          r := ConfigureDeviceComplete(controller, Some(data));
        case Some(_) =>
          r := Threw(ClassCastException);
      }
    }

    /** The reply callback of `getUIDs` and `runRDMDiscovery`: an unchecked cast; the reply itself is never read. */
    method OnUidListReply(controller: Controller, message: Option<Message>) returns (r: Outcome<Invocation<seq<UID>>>)
      ensures r.Threw? <==> message.Some? && !message.value.UidListReply?
      ensures r.Threw? ==> r.exception == ClassCastException
      ensures r.Returned? ==> Reports(r.value, controller)
      ensures r.Returned? && r.value.payload.Some? ==> r.value.payload.value == []
    {
      match message {
        case None =>
          var call := GetUidsComplete(controller, None);
          r := Returned(call);
        case Some(UidListReply(uids)) =>
          var call := GetUidsComplete(controller, Some(uids));
          r := Returned(call);
        case Some(_) =>
          r := Threw(ClassCastException);
      }
    }
  }

  /**
   * A push subscription's life: data for the registered universe reaches its
   * callback, data for another universe is dropped, and after unregistering the
   * universe's data is dropped too.
   */
  method PushLifecycle(callback: PushCallback, data: seq<JavaByte>)
    returns (delivered: Outcome<PushEffect>, elsewhere: Outcome<PushEffect>, afterwards: Outcome<PushEffect>)
    ensures delivered == Returned(Delivered(callback, DecodeLevels(data)))
    ensures elsewhere == Returned(NotRegistered)
    ensures afterwards == Returned(NotRegistered)
  {
    var client := new OlaAsyncClient();
    var registered := client.RegisterUniverse(5, Some(Register), Some(callback));
    delivered := client.UpdateDmxData(5, data);
    elsewhere := client.UpdateDmxData(6, data);
    var unregistered := client.RegisterUniverse(5, Some(Unregister), None);
    afterwards := client.UpdateDmxData(5, data);
  }
}
