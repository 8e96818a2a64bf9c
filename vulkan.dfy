/**
 * The host-API records and constants the engine negotiates over: Vulkan's extension and
 * queue-family descriptors and the few GLFW and Vulkan constants the core compares against.
 * Sizes are those of the LP64 C ABI the engine is built for.
 */
module Vulkan {
  import opened Cuti

  newtype u32 = x: int | 0 <= x < 0x1_0000_0000

  const UINT32_LIMIT: nat := 0x1_0000_0000

  /** `VkResult`: zero is success, positive codes are partial results, negative ones errors. */
  type VkResult = int

  const VK_SUCCESS: VkResult := 0

  const GLFW_TRUE: int := 1

  /** Room for an extension name in `VkExtensionProperties`, terminator included. */
  const VK_MAX_EXTENSION_NAME_SIZE: nat := 256

  /** An extension name as the driver stores it: NUL-terminated inside a 256-byte field. */
  type ExtName = s: CStr | |s| < VK_MAX_EXTENSION_NAME_SIZE

  /** `VkExtensionProperties` */
  datatype ExtensionProperties = ExtensionProperties(extensionName: ExtName, specVersion: u32)

  type VkQueueFlags = bv32

  const VK_QUEUE_GRAPHICS_BIT: VkQueueFlags := 0x1
  const VK_QUEUE_COMPUTE_BIT: VkQueueFlags := 0x2
  const VK_QUEUE_TRANSFER_BIT: VkQueueFlags := 0x4

  /** `VkExtent3D` */
  datatype Extent3D = Extent3D(width: u32, height: u32, depth: u32)

  /** `VkQueueFamilyProperties` */
  datatype QueueFamilyProperties = QueueFamilyProperties(
    queueFlags: VkQueueFlags,
    queueCount: u32,
    timestampValidBits: u32,
    minImageTransferGranularity: Extent3D)

  /** `sizeof` of the three record layouts the engine stores in a generic array. */
  const SIZEOF_STR_T: nat := 8
  const SIZEOF_EXTENSION_PROPERTIES: nat := VK_MAX_EXTENSION_NAME_SIZE + 4
  const SIZEOF_QUEUE_FAMILY_PROPERTIES: nat := 24

  /** A mask with exactly one bit set. */
  predicate IsSingleBit(m: VkQueueFlags)
  {
    m != 0 && m & (m - 1) == 0
  }

  /** Two masks have a set bit in common. */
  ghost predicate SharesBit(x: VkQueueFlags, y: VkQueueFlags)
  {
    exists m: VkQueueFlags :: IsSingleBit(m) && x & m != 0 && y & m != 0
  }

  /** The lowest set bit of a non-zero mask is a single bit of it. */
  lemma LowestSetBit(z: VkQueueFlags) returns (m: VkQueueFlags)
    requires z != 0
    ensures IsSingleBit(m) && z & m == m
  {
    m := z & (!z + 1);
  }

  /** A bit of `x & y` is a bit of `x` and of `y`. */
  lemma BitOfConjunction(x: VkQueueFlags, y: VkQueueFlags, m: VkQueueFlags)
    requires m != 0 && (x & y) & m == m
    ensures x & m != 0 && y & m != 0
  {
  }

  /** A non-zero conjunction exhibits a shared bit. */
  lemma SharedBitOfNonZeroAnd(x: VkQueueFlags, y: VkQueueFlags)
    requires x & y != 0
    ensures SharesBit(x, y)
  {
    var m := LowestSetBit(x & y);
    BitOfConjunction(x, y, m);
  }

  /** The C test `flags & mask` is non-zero exactly when the two masks share a bit. */
  lemma AndNonZeroIffSharesBit(x: VkQueueFlags, y: VkQueueFlags)
    ensures x & y != 0 <==> SharesBit(x, y)
  {
    if x & y != 0 {
      SharedBitOfNonZeroAnd(x, y);
    }
  }
}
