/**
 * Vulkan capability negotiation (`src/utils/vk_utils.c`): the record matchers, the
 * extension-check dispatch, the four size-then-fill providers and the boolean facades the
 * engine calls.
 *
 * Host calls are parameters: what the size query and the fill query report, and whether the
 * allocation in between succeeded. The error side channel (`xerr`) is the out-parameter
 * `raised`, true exactly when the call reported an error.
 */
module VkUtils {
  import opened Wrappers
  import opened Cuti
  import opened Vulkan

  /** Element sizes that none of the engine's record layouts has. */
  type ForeignSize = n: nat | n != SIZEOF_STR_T && n != SIZEOF_EXTENSION_PROPERTIES
                               && n != SIZEOF_QUEUE_FAMILY_PROPERTIES
    witness 1

  /**
   * `arrayable_t`, the generic record array `(bytes, elem_size, len)`. The record layout that
   * `elem_size` stands for is made explicit by the constructor; `Null` is the distinguished
   * failed triple `(NULL, 0, 0)`.
   */
  datatype Arrayable =
    | Null
    | Names(names: seq<CStr>)
    | ExtProps(props: seq<ExtensionProperties>)
    | QueueFamilies(families: seq<QueueFamilyProperties>)
    | Foreign(elemSize: ForeignSize, count: nat)
  {
    function ElemSize(): nat
    {
      match this
      case Null => 0
      case Names(_) => SIZEOF_STR_T
      case ExtProps(_) => SIZEOF_EXTENSION_PROPERTIES
      case QueueFamilies(_) => SIZEOF_QUEUE_FAMILY_PROPERTIES
      case Foreign(size, _) => size
    }

    function Len(): nat
    {
      match this
      case Null => 0
      case Names(names) => |names|
      case ExtProps(props) => |props|
      case QueueFamilies(families) => |families|
      case Foreign(_, count) => count
    }
  }

  // ---------------------------------------------------------------------------------------
  // Record matchers
  // ---------------------------------------------------------------------------------------

  /** A match spec whose six compared fields are all zero: it asks for nothing. */
  const ANY_QUEUE_FAMILY := QueueFamilyProperties(0, 0, 0, Extent3D(0, 0, 0))

  /** The five scalar fields a match spec may pin down, in the order they are tested. */
  function ScalarFields(q: QueueFamilyProperties): (r: seq<u32>)
    ensures |r| == 5
    ensures r[0] == q.queueCount && r[1] == q.timestampValidBits
    ensures r[2] == q.minImageTransferGranularity.width
    ensures r[3] == q.minImageTransferGranularity.height
    ensures r[4] == q.minImageTransferGranularity.depth
  {
    [q.queueCount, q.timestampValidBits, q.minImageTransferGranularity.width,
     q.minImageTransferGranularity.height, q.minImageTransferGranularity.depth]
  }

  /**
   * What a queue-family match spec asks of a candidate, field by field: a zero field asks
   * nothing; a non-zero flag mask asks for at least one flag in common; a non-zero scalar asks
   * for that exact value.
   */
  ghost predicate Satisfies(props: QueueFamilyProperties, spec: QueueFamilyProperties)
  {
    && (spec.queueFlags == 0 || SharesBit(props.queueFlags, spec.queueFlags))
    && forall k :: 0 <= k < 5 ==> ScalarFields(spec)[k] == 0 || ScalarFields(spec)[k] == ScalarFields(props)[k]
  }

  /** `Satisfies` read one field at a time. */
  lemma SatisfiesFieldwise(props: QueueFamilyProperties, spec: QueueFamilyProperties)
    ensures Satisfies(props, spec) <==>
      && (spec.queueFlags == 0 || SharesBit(props.queueFlags, spec.queueFlags))
      && (spec.queueCount == 0 || spec.queueCount == props.queueCount)
      && (spec.timestampValidBits == 0 || spec.timestampValidBits == props.timestampValidBits)
      && (spec.minImageTransferGranularity.width == 0
          || spec.minImageTransferGranularity.width == props.minImageTransferGranularity.width)
      && (spec.minImageTransferGranularity.height == 0
          || spec.minImageTransferGranularity.height == props.minImageTransferGranularity.height)
      && (spec.minImageTransferGranularity.depth == 0
          || spec.minImageTransferGranularity.depth == props.minImageTransferGranularity.depth)
  {
    var specFields, propsFields := ScalarFields(spec), ScalarFields(props);
    assert specFields[0] == spec.queueCount;
  }

  /** `qfams_match(props, match_props)`: tests the spec's fields one after the other and
      answers not-equal at the first one the candidate fails. */
  function QfamsMatch(props: QueueFamilyProperties, matchProps: QueueFamilyProperties): (r: Comparison)
    ensures r == ComparisonEqual <==> Satisfies(props, matchProps)
    ensures matchProps == ANY_QUEUE_FAMILY ==> r == ComparisonEqual
  {
    AndNonZeroIffSharesBit(props.queueFlags, matchProps.queueFlags);
    SatisfiesFieldwise(props, matchProps);
    var granularity := props.minImageTransferGranularity;
    var matchGranularity := matchProps.minImageTransferGranularity;
    if matchProps.queueFlags != 0 && props.queueFlags & matchProps.queueFlags == 0 then
      ComparisonNotEqual
    else if matchProps.queueCount != 0 && props.queueCount != matchProps.queueCount then
      ComparisonNotEqual
    else if matchProps.timestampValidBits != 0 && props.timestampValidBits != matchProps.timestampValidBits then
      ComparisonNotEqual
    else if matchGranularity.width != 0 && granularity.width != matchGranularity.width then
      ComparisonNotEqual
    else if matchGranularity.height != 0 && granularity.height != matchGranularity.height then
      ComparisonNotEqual
    else if matchGranularity.depth != 0 && granularity.depth != matchGranularity.depth then
      ComparisonNotEqual
    else
      ComparisonEqual
  }

  /** `ext_prop_str_match(prop, str, max_name_len)`: a descriptor's name against a bare name,
      compared by `str_eq` within the given bound. */
  function ExtPropStrMatch(prop: ExtensionProperties, str: CStr, maxNameLen: nat): (r: Comparison)
    ensures r == ComparisonEqual <==> Bounded(prop.extensionName, maxNameLen) == Bounded(str, maxNameLen)
    ensures maxNameLen >= VK_MAX_EXTENSION_NAME_SIZE ==> (r == ComparisonEqual <==> prop.extensionName == str)
  {
    StrEqIsBoundedEquality(prop.extensionName, str, maxNameLen);
    StrEqExact(prop.extensionName, str, maxNameLen);
    if StrEq(prop.extensionName, str, maxNameLen) then ComparisonEqual else ComparisonNotEqual
  }

  /** `ext_prop_str_match` with its `max_name_len` argument bound, as `check_exts` hands it to
      the containment search. */
  function StrMatcher(maxNameLen: nat): (ExtensionProperties, CStr) -> Comparison
  {
    (prop: ExtensionProperties, str: CStr) => ExtPropStrMatch(prop, str, maxNameLen)
  }

  /** `ext_props_match(prop1, prop2)`: two descriptors compared by name only. */
  function ExtPropsMatch(prop1: ExtensionProperties, prop2: ExtensionProperties): (r: Comparison)
    ensures r == ComparisonEqual <==> prop1.extensionName == prop2.extensionName
  {
    StrEqExact(prop1.extensionName, prop2.extensionName, VK_MAX_EXTENSION_NAME_SIZE);
    if StrEq(prop1.extensionName, prop2.extensionName, VK_MAX_EXTENSION_NAME_SIZE) then
      ComparisonEqual
    else
      ComparisonNotEqual
  }

  // ---------------------------------------------------------------------------------------
  // Extension-check dispatch
  // ---------------------------------------------------------------------------------------

  /** The needle layouts `check_exts` has a matcher for. */
  predicate IsExtensionKind(exts: Arrayable)
  {
    exts.ElemSize() == SIZEOF_STR_T || exts.ElemSize() == SIZEOF_EXTENSION_PROPERTIES
  }

  /** The extension names a needle array of a known layout asks for. */
  function RequestedNames(exts: Arrayable): (r: seq<CStr>)
    requires IsExtensionKind(exts)
    ensures |r| == exts.Len()
  {
    match exts
    case Names(names) => names
    case ExtProps(props) => seq(|props|, i requires 0 <= i < |props| => props[i].extensionName)
  }

  /** The names of a list of extension descriptors. */
  function ExtensionNames(supExts: seq<ExtensionProperties>): set<CStr>
  {
    set e | e in supExts :: e.extensionName
  }

  /** Every extension the needle array asks for is named in the supported list. */
  predicate ExtsContained(supExts: seq<ExtensionProperties>, exts: Arrayable)
  {
    && IsExtensionKind(exts)
    && forall i :: 0 <= i < exts.Len() ==> RequestedNames(exts)[i] in ExtensionNames(supExts)
  }

  /** The answer of `check_exts` and whether it raised an error. */
  datatype Checked = Checked(supported: bool, raised: bool)

  /** `check_exts(sup_exts, exts)`: picks the matcher by the needles' element size, then asks
      whether every needle is found among the supported extensions. */
  function CheckExts(supExts: seq<ExtensionProperties>, exts: Arrayable): (r: Checked)
    ensures r.raised <==> !IsExtensionKind(exts)
    ensures r.supported <==> ExtsContained(supExts, exts)
  {
    match exts
    case Names(names) =>
      var found := ArrayHasAll(supExts, names, StrMatcher(VK_MAX_EXTENSION_NAME_SIZE));
      NamesFoundAreContained(supExts, names);
      Checked(found, false)
    case ExtProps(props) =>
      var found := ArrayHasAll(supExts, props, ExtPropsMatch);
      PropsFoundAreContained(supExts, props);
      Checked(found, false)
    case _ =>
      Checked(false, true)
  }

  /** With bare-name needles, the containment search finds exactly the names in the list. */
  lemma NamesFoundAreContained(supExts: seq<ExtensionProperties>, names: seq<CStr>)
    ensures ArrayHasAll(supExts, names, StrMatcher(VK_MAX_EXTENSION_NAME_SIZE))
            <==> ExtsContained(supExts, Names(names))
  {
    var cmp := StrMatcher(VK_MAX_EXTENSION_NAME_SIZE);
    forall i | 0 <= i < |names|
      ensures ArrayHas(supExts, names[i], cmp) <==> names[i] in ExtensionNames(supExts)
    {
      if names[i] in ExtensionNames(supExts) {
        var e :| e in supExts && e.extensionName == names[i];
        var j :| 0 <= j < |supExts| && supExts[j] == e;
        assert cmp(supExts[j], names[i]) == ComparisonEqual;
      }
      if ArrayHas(supExts, names[i], cmp) {
        var j :| 0 <= j < |supExts| && cmp(supExts[j], names[i]) == ComparisonEqual;
        assert supExts[j] in supExts;
      }
    }
    assert RequestedNames(Names(names)) == names;
  }

  /** With descriptor needles, the containment search finds exactly the names in the list. */
  lemma PropsFoundAreContained(supExts: seq<ExtensionProperties>, props: seq<ExtensionProperties>)
    ensures ArrayHasAll(supExts, props, ExtPropsMatch) <==> ExtsContained(supExts, ExtProps(props))
  {
    var requested := RequestedNames(ExtProps(props));
    forall i | 0 <= i < |props|
      ensures ArrayHas(supExts, props[i], ExtPropsMatch) <==> requested[i] in ExtensionNames(supExts)
    {
      if requested[i] in ExtensionNames(supExts) {
        var e :| e in supExts && e.extensionName == props[i].extensionName;
        var j :| 0 <= j < |supExts| && supExts[j] == e;
        assert ExtPropsMatch(supExts[j], props[i]) == ComparisonEqual;
      }
      if ArrayHas(supExts, props[i], ExtPropsMatch) {
        var j :| 0 <= j < |supExts| && ExtPropsMatch(supExts[j], props[i]) == ComparisonEqual;
        assert supExts[j] in supExts;
      }
    }
  }

  // ---------------------------------------------------------------------------------------
  // Providers: size query, allocation, fill query; all or nothing
  // ---------------------------------------------------------------------------------------

  /**
   * What the host answers to one two-call enumeration: the result of the size query and the
   * count it reports, then the result of the fill query and the records it writes.
   */
  datatype Enumeration<T> = Enumeration(countResult: VkResult, count: nat, fillResult: VkResult, filled: seq<T>)
  {
    /** The host keeps to the API: the count is a `uint32_t` and the fill query writes at most
        as many records as the caller made room for. */
    predicate Conforms()
    {
      count < UINT32_LIMIT && |filled| <= count
    }

    /** Both queries report `VK_SUCCESS`. */
    predicate Succeeds()
    {
      countResult == VK_SUCCESS && fillResult == VK_SUCCESS
    }
  }

  /** The size-then-fill pattern shared by the two extension providers. */
  method EnumerateExtensions(host: Enumeration<ExtensionProperties>, allocOk: bool)
    returns (exts: Arrayable, raised: bool)
    requires host.Conforms()
    ensures raised <==> exts == Null
    ensures exts == Null <==> !host.Succeeds() || !allocOk
    ensures exts != Null ==> exts == ExtProps(host.filled)
  {
    var extsLen: nat := 0;
    var result := host.countResult;
    if result != VK_SUCCESS {
      return Null, true;
    }
    extsLen := host.count;

    if !allocOk {
      return Null, true;
    }
    var buffer := new ExtensionProperties[extsLen];

    result := host.fillResult;
    if result != VK_SUCCESS {
      return Null, true;
    }
    // The fill query writes the host's records into the buffer; the copy stands for that write.
    XMemcpy(host.filled, buffer, |host.filled|);
    extsLen := |host.filled|;

    exts, raised := ExtProps(buffer[..extsLen]), false;
  }

  /** `vk_get_sup_exts`: the instance-level extensions the host supports. */
  method VkGetSupExts(host: Enumeration<ExtensionProperties>, allocOk: bool)
    returns (supExts: Arrayable, raised: bool)
    requires host.Conforms()
    ensures raised <==> supExts == Null
    ensures supExts == Null <==> !host.Succeeds() || !allocOk
    ensures supExts != Null ==> supExts == ExtProps(host.filled)
                                && supExts.ElemSize() == SIZEOF_EXTENSION_PROPERTIES
                                && supExts.Len() == |host.filled|
    ensures supExts == Null ==> supExts.ElemSize() == 0 && supExts.Len() == 0
  {
    supExts, raised := EnumerateExtensions(host, allocOk);
  }

  /** `vk_pdev_get_sup_exts`: the extensions one physical device supports. */
  method VkPdevGetSupExts(host: Enumeration<ExtensionProperties>, allocOk: bool)
    returns (supExts: Arrayable, raised: bool)
    requires host.Conforms()
    ensures raised <==> supExts == Null
    ensures supExts == Null <==> !host.Succeeds() || !allocOk
    ensures supExts != Null ==> supExts == ExtProps(host.filled)
                                && supExts.ElemSize() == SIZEOF_EXTENSION_PROPERTIES
                                && supExts.Len() == |host.filled|
    ensures supExts == Null ==> supExts.ElemSize() == 0 && supExts.Len() == 0
  {
    supExts, raised := EnumerateExtensions(host, allocOk);
  }

  /**
   * `vk_pdev_get_qfam_props`: the queue families of one physical device. The host query
   * reports no result code, so allocation is the only way it fails.
   */
  method VkPdevGetQfamProps(count: nat, allocOk: bool, filled: seq<QueueFamilyProperties>)
    returns (qfamProps: Arrayable, raised: bool)
    requires count < UINT32_LIMIT && |filled| <= count
    ensures raised <==> qfamProps == Null
    ensures qfamProps == Null <==> !allocOk
    ensures qfamProps != Null ==> qfamProps == QueueFamilies(filled)
                                  && qfamProps.ElemSize() == SIZEOF_QUEUE_FAMILY_PROPERTIES
                                  && qfamProps.Len() == |filled|
  {
    var propsLen: nat := count;

    if !allocOk {
      return Null, true;
    }
    var buffer := new QueueFamilyProperties[propsLen];

    // The fill query writes the host's records into the buffer; the copy stands for that write.
    XMemcpy(filled, buffer, |filled|);
    propsLen := |filled|;

    qfamProps, raised := QueueFamilies(buffer[..propsLen]), false;
  }

  /** The extensions the engine itself adds to GLFW's list; none so far. */
  const OTHER_EXTS: seq<CStr> := []

  /**
   * `vk_get_req_exts`: the instance extensions the engine requires, GLFW's list followed by
   * the engine's own. GLFW answers NULL (`None`) when it cannot say.
   */
  method VkGetReqExts(glfwReqExts: Option<seq<CStr>>, allocOk: bool)
    returns (reqExts: Arrayable, raised: bool)
    requires glfwReqExts.Some? ==> |glfwReqExts.value| < UINT32_LIMIT
    ensures raised <==> reqExts == Null
    ensures reqExts == Null <==> glfwReqExts.None? || !allocOk
    ensures reqExts != Null ==> reqExts == Names(glfwReqExts.value)
                                && reqExts.ElemSize() == SIZEOF_STR_T
                                && reqExts.Len() == |glfwReqExts.value|
  {
    if glfwReqExts.None? {
      return Null, true;
    }
    var glfwExts := glfwReqExts.value;
    var otherExts := OTHER_EXTS;

    var reqExtsLen := |glfwExts| + |otherExts|;
    if !allocOk {
      return Null, true;
    }
    var buffer := new CStr[reqExtsLen];

    XMemcpy(glfwExts, buffer, |glfwExts|);
    XMemcpy(otherExts, buffer, |otherExts|);

    reqExts, raised := Names(buffer[..]), false;
  }

  // ---------------------------------------------------------------------------------------
  // Facades
  // ---------------------------------------------------------------------------------------

  /** `vk_exts_supported(exts)`: every extension in `exts` is supported by the instance. */
  method VkExtsSupported(host: Enumeration<ExtensionProperties>, allocOk: bool, exts: Arrayable)
    returns (supported: bool, raised: bool)
    requires host.Conforms()
    ensures supported <==> host.Succeeds() && allocOk && ExtsContained(host.filled, exts)
    ensures raised <==> !host.Succeeds() || !allocOk || !IsExtensionKind(exts)
  {
    var supExts, fetchRaised := VkGetSupExts(host, allocOk);
    if supExts == Null {
      return false, true;
    }
    var checked := CheckExts(supExts.props, exts);
    supported, raised := checked.supported, checked.raised;
  }

  /** `vk_pdev_has_qfam(pdev, props)`: some queue family of the device satisfies the spec. */
  method VkPdevHasQfam(count: nat, allocOk: bool, filled: seq<QueueFamilyProperties>,
                       props: QueueFamilyProperties)
    returns (hasQfam: bool, raised: bool)
    requires count < UINT32_LIMIT && |filled| <= count
    ensures hasQfam <==> allocOk && exists j :: 0 <= j < |filled| && Satisfies(filled[j], props)
    ensures raised <==> !allocOk
  {
    var qfamProps, fetchRaised := VkPdevGetQfamProps(count, allocOk, filled);
    if qfamProps == Null {
      return false, true;
    }
    hasQfam := ArrayHas(qfamProps.families, props, QfamsMatch);
    raised := false;
  }

  /** `vk_pdev_exts_supported(pdev, exts)`: every extension in `exts` is supported by the
      device. */
  method VkPdevExtsSupported(host: Enumeration<ExtensionProperties>, allocOk: bool, exts: Arrayable)
    returns (supported: bool, raised: bool)
    requires host.Conforms()
    ensures supported <==> host.Succeeds() && allocOk && ExtsContained(host.filled, exts)
    ensures raised <==> !host.Succeeds() || !allocOk || !IsExtensionKind(exts)
  {
    var supExts, fetchRaised := VkPdevGetSupExts(host, allocOk);
    if supExts == Null {
      return false, true;
    }
    var checked := CheckExts(supExts.props, exts);
    supported, raised := checked.supported, checked.raised;
  }

  // ---------------------------------------------------------------------------------------
  // Properties of the negotiation
  // ---------------------------------------------------------------------------------------

  /** A spec that pins only a non-zero flag mask finds a family exactly when some family
      shares a flag with the mask, whatever its queue count or other fields. */
  lemma {:induction false} FlagsOnlySpecFindsOverlap(families: seq<QueueFamilyProperties>, flags: VkQueueFlags)
    ensures ArrayHas(families, ANY_QUEUE_FAMILY.(queueFlags := flags), QfamsMatch)
            <==> exists j :: 0 <= j < |families| && (flags == 0 || families[j].queueFlags & flags != 0)
  {
    var spec := ANY_QUEUE_FAMILY.(queueFlags := flags);
    forall j | 0 <= j < |families|
      ensures QfamsMatch(families[j], spec) == ComparisonEqual
              <==> (flags == 0 || families[j].queueFlags & flags != 0)
    {
    }
  }

  /** Asking for a graphics queue finds a family exactly when one has the graphics bit. */
  lemma GraphicsQueryFindsGraphicsFamily(families: seq<QueueFamilyProperties>)
    ensures ArrayHas(families, ANY_QUEUE_FAMILY.(queueFlags := VK_QUEUE_GRAPHICS_BIT), QfamsMatch)
            <==> exists j :: 0 <= j < |families| && families[j].queueFlags & VK_QUEUE_GRAPHICS_BIT != 0
  {
  }

  /** The flag test accepts any shared flag: a graphics-and-compute family satisfies a spec
      asking for graphics and transfer. */
  lemma FlagTestIsAnyOverlap()
    ensures QfamsMatch(ANY_QUEUE_FAMILY.(queueFlags := VK_QUEUE_GRAPHICS_BIT | VK_QUEUE_COMPUTE_BIT),
                       ANY_QUEUE_FAMILY.(queueFlags := VK_QUEUE_GRAPHICS_BIT | VK_QUEUE_TRANSFER_BIT))
            == ComparisonEqual
  {
  }

  /** With the full name bound, a name never matches a longer name it is a prefix of, in
      either role. */
  lemma PrefixNameDoesNotMatch(name: CStr, suffix: CStr, specVersion: u32)
    requires |suffix| > 0 && |name| + |suffix| < VK_MAX_EXTENSION_NAME_SIZE
    ensures ExtPropStrMatch(ExtensionProperties(name + suffix, specVersion), name,
                            VK_MAX_EXTENSION_NAME_SIZE) == ComparisonNotEqual
    ensures ExtPropStrMatch(ExtensionProperties(name, specVersion), name + suffix,
                            VK_MAX_EXTENSION_NAME_SIZE) == ComparisonNotEqual
  {
  }

  /** A bound that stops before the shorter name's terminator lets a prefix match. */
  lemma ShortBoundMatchesPrefix(name: CStr, suffix: CStr, specVersion: u32, bound: nat)
    requires |name| + |suffix| < VK_MAX_EXTENSION_NAME_SIZE && bound <= |name|
    ensures ExtPropStrMatch(ExtensionProperties(name + suffix, specVersion), name, bound)
            == ComparisonEqual
  {
  }

  /** An empty needle array of a known layout is contained in any list. */
  lemma NoNeedlesAreContained(supExts: seq<ExtensionProperties>, exts: Arrayable)
    requires IsExtensionKind(exts) && exts.Len() == 0
    ensures CheckExts(supExts, exts) == Checked(true, false)
  {
  }

  /** A name that no supported extension carries is not supported. */
  lemma MissingNameNotContained(supExts: seq<ExtensionProperties>, name: CStr)
    requires forall j :: 0 <= j < |supExts| ==> supExts[j].extensionName != name
    ensures CheckExts(supExts, Names([name])) == Checked(false, false)
  {
  }
}
