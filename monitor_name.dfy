/**
  Friendly-name lookup for a monitor (obs.c).

  GetMonitorTarget asks the display configuration for its active paths and
  looks, in index order, for the first path whose source GDI device name is
  the monitor's device name; it then asks for that path's target name.
  GetMonitorName writes that friendly name, or "[OBS: Unknown]" when any
  step fails.

  The Win32 calls are not modelled: their outcomes are the fields of a
  DisplayConfig value. A `DisplayConfigGetDeviceInfo` request succeeds
  exactly when its (adapter, id) key is in the matching map, and then yields
  the name stored there. The model also returns, as values, the request
  headers the code sends and the buffers it allocates and frees.
 */
module MonitorName {
  import opened Wrappers

  /** A wide-character string; conversion to UTF-8 is not modelled. */
  type WString = seq<char>

  /** A locally unique identifier, as Windows names display adapters. */
  datatype Luid = Luid(lowPart: nat, highPart: int)

  /** The fields of a DISPLAYCONFIG_PATH_INFO that the lookup reads. */
  datatype PathInfo = PathInfo(sourceAdapterId: Luid, sourceId: nat, targetAdapterId: Luid, targetId: nat)

  /** The adapter and id of a DISPLAYCONFIG_DEVICE_INFO_HEADER. */
  datatype DeviceKey = DeviceKey(adapterId: Luid, id: nat)

  datatype InfoKind = GetSourceName | GetTargetName

  /** The header of one DisplayConfigGetDeviceInfo request (its size field is not modelled). */
  datatype InfoRequest = InfoRequest(kind: InfoKind, key: DeviceKey)

  /** What the display-configuration calls answer. */
  datatype DisplayConfig = DisplayConfig(
    sizesOk: bool,                         // GetDisplayConfigBufferSizes returns ERROR_SUCCESS
    queryOk: bool,                         // QueryDisplayConfig returns ERROR_SUCCESS
    paths: seq<PathInfo>,                  // the active paths QueryDisplayConfig fills in
    sourceNames: map<DeviceKey, WString>,  // viewGdiDeviceName of every source whose name query succeeds
    targetNames: map<DeviceKey, WString>)  // monitorFriendlyDeviceName of every target whose name query succeeds

  /** The DISPLAYCONFIG_TARGET_DEVICE_NAME out-parameter: the header written, and the friendly name. */
  datatype TargetDeviceName = TargetDeviceName(header: Option<InfoRequest>, friendlyName: WString)

  datatype Buffer = PathBuffer | ModeBuffer

  datatype MemoryEvent = Alloc(buffer: Buffer) | Free(buffer: Buffer)

  const UnknownName: string := "[OBS: Unknown]"

  /** The source-name request for a path. */
  function SourceRequest(path: PathInfo): (request: InfoRequest)
  {
    InfoRequest(GetSourceName, DeviceKey(path.sourceAdapterId, path.sourceId))
  }

  /** The target-name request for a path: the SOURCE's adapter id with the target's id. */
  function TargetRequest(path: PathInfo): (request: InfoRequest)
  {
    InfoRequest(GetTargetName, DeviceKey(path.sourceAdapterId, path.targetId))
  }

  /** The path's source-name query succeeds and names `device`. */
  predicate SourceMatches(config: DisplayConfig, path: PathInfo, device: WString)
  {
    SourceRequest(path).key in config.sourceNames && config.sourceNames[SourceRequest(path).key] == device
  }

  /** Path k is the first path that matches `device`. */
  predicate IsFirstMatch(config: DisplayConfig, device: WString, k: nat)
  {
    && k < |config.paths|
    && SourceMatches(config, config.paths[k], device)
    && forall j :: 0 <= j < k ==> !SourceMatches(config, config.paths[j], device)
  }

  /** The first path at or after index i that matches `device`, if any. */
  function FirstMatchFrom(config: DisplayConfig, device: WString, i: nat): (r: Option<nat>)
    requires i <= |config.paths|
    ensures r.Some? ==>
      && i <= r.value < |config.paths|
      && SourceMatches(config, config.paths[r.value], device)
      && forall j :: i <= j < r.value ==> !SourceMatches(config, config.paths[j], device)
    ensures r.None? ==> forall j :: i <= j < |config.paths| ==> !SourceMatches(config, config.paths[j], device)
    decreases |config.paths| - i
  {
    if i == |config.paths| then None
    else if SourceMatches(config, config.paths[i], device) then Some(i)
    else FirstMatchFrom(config, device, i + 1)
  }

  /** The first path that matches `device`: the path the lookup settles on. */
  function FirstMatch(config: DisplayConfig, device: WString): (r: Option<nat>)
    ensures r.Some? ==> IsFirstMatch(config, device, r.value)
    ensures r.None? ==> forall j :: 0 <= j < |config.paths| ==> !SourceMatches(config, config.paths[j], device)
  {
    FirstMatchFrom(config, device, 0)
  }

  /** The first match is unique, so FirstMatch names it whenever there is one. */
  lemma FirstMatchExact(config: DisplayConfig, device: WString, k: nat)
    ensures FirstMatch(config, device) == Some(k) <==> IsFirstMatch(config, device, k)
  {
  }

  /** The lookup succeeds: both buffer calls succeed, a path matches, and its target-name query succeeds. */
  predicate TargetFound(config: DisplayConfig, device: WString)
  {
    && config.sizesOk
    && config.queryOk
    && FirstMatch(config, device).Some?
    && TargetRequest(config.paths[FirstMatch(config, device).value]).key in config.targetNames
  }

  /** The friendly name the successful lookup yields. */
  function FoundFriendlyName(config: DisplayConfig, device: WString): (name: WString)
    requires TargetFound(config, device)
  {
    config.targetNames[TargetRequest(config.paths[FirstMatch(config, device).value]).key]
  }

  /** Source-name requests for the given paths, in order. */
  function SourceRequests(paths: seq<PathInfo>): (r: seq<InfoRequest>)
    ensures |r| == |paths| && forall i :: 0 <= i < |paths| ==> r[i] == SourceRequest(paths[i])
  {
    seq(|paths|, i requires 0 <= i < |paths| => SourceRequest(paths[i]))
  }

  /**
    The requests the lookup sends, in order: nothing when a buffer call
    fails; otherwise one source request per path up to and including the
    first match, then that path's target request; or one source request
    per path when nothing matches.
   */
  function ExpectedRequests(config: DisplayConfig, device: WString): (requests: seq<InfoRequest>)
  {
    if !config.sizesOk || !config.queryOk then []
    else match FirstMatch(config, device)
      case None => SourceRequests(config.paths)
      case Some(k) => SourceRequests(config.paths[.. k + 1]) + [TargetRequest(config.paths[k])]
  }

  /** Both buffers allocated and each freed once when the size query succeeds; nothing otherwise. */
  function MemoryTrace(config: DisplayConfig): (trace: seq<MemoryEvent>)
  {
    if config.sizesOk then [Alloc(PathBuffer), Alloc(ModeBuffer), Free(ModeBuffer), Free(PathBuffer)] else []
  }

  /**
    GetMonitorTarget (obs.c:1-51). `target0` is the caller's struct before
    the call; `target` is the struct after it.
   */
  method GetMonitorTarget(device: WString, config: DisplayConfig, target0: TargetDeviceName)
    returns (found: bool, target: TargetDeviceName, requests: seq<InfoRequest>, memory: seq<MemoryEvent>)
    ensures found == TargetFound(config, device)
    ensures found ==> target.friendlyName == FoundFriendlyName(config, device)
    ensures config.sizesOk && config.queryOk && FirstMatch(config, device).Some? ==>
      target.header == Some(TargetRequest(config.paths[FirstMatch(config, device).value]))
    ensures !(config.sizesOk && config.queryOk && FirstMatch(config, device).Some?) ==> target == target0
    ensures !found ==> target.friendlyName == target0.friendlyName
    ensures requests == ExpectedRequests(config, device)
    ensures memory == MemoryTrace(config)
  {
    found := false;
    target := target0;
    requests := [];
    memory := [];
    if config.sizesOk {
      memory := memory + [Alloc(PathBuffer)];
      memory := memory + [Alloc(ModeBuffer)];
      if config.queryOk {
        var paths := config.paths;
        var i := 0;
        while i < |paths|
          invariant 0 <= i <= |paths|
          invariant forall j :: 0 <= j < i ==> !SourceMatches(config, paths[j], device)
          invariant requests == SourceRequests(paths[.. i])
          invariant !found && target == target0
        {
          var path := paths[i];
          var source := SourceRequest(path);
          requests := requests + [source];
          if source.key in config.sourceNames && config.sourceNames[source.key] == device {
            var request := TargetRequest(path);
            target := target.(header := Some(request));
            requests := requests + [request];
            found := request.key in config.targetNames;
            if found {
              target := target.(friendlyName := config.targetNames[request.key]);
            }
            FirstMatchExact(config, device, i);
            assert paths[.. i + 1] == paths[.. i] + [path];
            break;
          }
          assert paths[.. i + 1] == paths[.. i] + [path];
          i := i + 1;
        }
        if i == |paths| {
          assert paths[.. i] == paths;
        }
      }
      memory := memory + [Free(ModeBuffer)];
      memory := memory + [Free(PathBuffer)];
    }
  }

  /**
    GetMonitorName (obs.c:53-70). `monitorDevice` is the szDevice that
    GetMonitorInfoW reports, or None when that call fails.
   */
  method GetMonitorName(monitorDevice: Option<WString>, config: DisplayConfig)
    returns (name: string, requests: seq<InfoRequest>, memory: seq<MemoryEvent>)
    ensures monitorDevice.Some? && TargetFound(config, monitorDevice.value) ==>
      name == FoundFriendlyName(config, monitorDevice.value)
    ensures !(monitorDevice.Some? && TargetFound(config, monitorDevice.value)) ==> name == UnknownName
    ensures monitorDevice.None? ==> requests == [] && memory == []
    ensures monitorDevice.Some? ==>
      requests == ExpectedRequests(config, monitorDevice.value) && memory == MemoryTrace(config)
  {
    requests, memory := [], [];
    var found := false;
    var target := TargetDeviceName(None, []);
    if monitorDevice.Some? {
      found, target, requests, memory := GetMonitorTarget(monitorDevice.value, config, target);
    }
    if found {
      name := target.friendlyName;
    } else {
      name := UnknownName;
    }
  }

  /** When no path's source name is the device, the lookup fails. */
  lemma NoMatchNotFound(config: DisplayConfig, device: WString)
    requires forall j :: 0 <= j < |config.paths| ==> !SourceMatches(config, config.paths[j], device)
    ensures !TargetFound(config, device)
    ensures config.sizesOk && config.queryOk ==> ExpectedRequests(config, device) == SourceRequests(config.paths)
  {
  }

  /**
    The lookup succeeds exactly when the buffer calls succeed and some path
    is the first match and has a target name: a later matching path with a
    target name does not make up for a first match without one.
   */
  lemma FoundIffFirstMatchHasTarget(config: DisplayConfig, device: WString)
    ensures TargetFound(config, device) <==>
      && config.sizesOk && config.queryOk
      && exists k: nat :: IsFirstMatch(config, device, k) && TargetRequest(config.paths[k]).key in config.targetNames
  {
  }

  /**
    Paths after the first match are never examined: replacing them by any
    other paths changes neither the result, nor the friendly name, nor the
    requests sent.
   */
  lemma LaterPathsIgnored(config: DisplayConfig, device: WString, k: nat, rest: seq<PathInfo>)
    requires IsFirstMatch(config, device, k)
    ensures var other := config.(paths := config.paths[.. k + 1] + rest);
      && TargetFound(other, device) == TargetFound(config, device)
      && (TargetFound(config, device) ==> FoundFriendlyName(other, device) == FoundFriendlyName(config, device))
      && ExpectedRequests(other, device) == ExpectedRequests(config, device)
  {
    var other := config.(paths := config.paths[.. k + 1] + rest);
    assert forall j :: 0 <= j <= k ==> other.paths[j] == config.paths[j];
    assert IsFirstMatch(other, device, k);
    FirstMatchExact(config, device, k);
    FirstMatchExact(other, device, k);
    assert other.paths[.. k + 1] == config.paths[.. k + 1];
  }
}
