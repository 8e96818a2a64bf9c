# AGE capability negotiation, modelled in Dafny

AGE is a game engine on top of Vulkan and GLFW. Before it creates any GPU resources, it checks
that the host offers what the engine needs. It enumerates the instance and device extensions
and a device's queue families. It then tests that every required record is matched by some
supported record.

This project models that negotiation layer (`src/utils/vk_utils.c`) and the engine's core
state (`src/AGE.c`):

- `cuti.dfy`, module `Cuti`: the contracts the engine assumes of the `cuti` utility library.
  This covers `str_eq` (bounded, NUL-aware name comparison), `array_has` and `array_hasall`
  (containment searches driven by a comparator) and `xmemcpy`. The library's source is not
  part of this model.
- `vulkan.dfy`, module `Vulkan`: the host records (`VkExtensionProperties`,
  `VkQueueFamilyProperties`, `VkExtent3D`) and the constants the core uses. It also proves that
  the C flag test `flags & mask` is non-zero exactly when the masks share a bit.
- `vk_utils.dfy`, module `VkUtils`, holds these parts:
  - the generic record array `arrayable_t`, as a tagged datatype whose `Null` case is the
    failed triple `(NULL, 0, 0)`;
  - the three record matchers;
  - the `check_exts` dispatch on the needles' element size;
  - the four size-then-fill providers, written as methods that allocate a buffer and fill it;
  - the three boolean facades;
  - lemmas about the negotiation.
- `age.dfy`, module `Age`: the static `AGE_core` as a class `EngineCore`, with `AGE_init`,
  `AGE_term`, the list construction and the accessors.
- `wrappers.dfy`: an `Option` type for pointers that may be NULL.

Host calls are method parameters. For Vulkan these are the result code and count of the size
query, then the result code and records of the fill query. For GLFW they are the answer of
`glfwInit` and the required-extension list, or `None` for NULL. Whether `xmalloc` succeeds is a
parameter too, including for zero-length requests. The error side channel (`xerr`) is the
out-parameter or result field `raised`. It is true exactly when the call reported an error.

Record sizes follow the LP64 C ABI:

- `str_t` is 8 bytes;
- `VkExtensionProperties` is 260 bytes;
- `VkQueueFamilyProperties` is 24 bytes.

A needle array of any other layout, `Foreign`, `QueueFamilies` or `Null` included, takes the
unknown-kind error branch of `check_exts`.

## Queue-flag test

The comment at `src/utils/vk_utils.c:208-209` says each non-zero match property is checked to
be "present in test properties". Read that way, a flag mask would ask for all of its bits. The
code at line 211 tests `!(flags & match_flags)` instead, which accepts any shared bit. The
model follows the code. `VkUtils.FlagTestIsAnyOverlap` shows that a graphics-and-compute
family matches a spec asking for graphics and transfer.

## Model

| member | source | states |
|---|---|---|
| `Cuti.StrEqIsBoundedEquality` | src/utils/vk_utils.c:242 | `str_eq(a, b, n)` holds exactly when the first `n` characters of the two strings, cut after the first NUL, are equal: characters past a terminator or past the bound never matter |
| `Cuti.StrEqExact` | src/utils/vk_utils.c:253 | when the bound leaves room for the terminator of the first name, `str_eq` is plain name equality, so a name does not match a longer one it is a prefix of |
| `Cuti.StrEqSymmetricReflexive` | src/utils/vk_utils.c:247-256 | `str_eq` is symmetric and reflexive for every bound, so `ext_props_match` is too |
| `Cuti.ArrayHas` | src/utils/vk_utils.c:146 | `array_has` holds exactly when some haystack element compares equal to the needle |
| `Cuti.ArrayHasAll` | src/utils/vk_utils.c:187 | `array_hasall` holds exactly when every needle is found by `array_has`, and holds for no needles at all |
| `Cuti.XMemcpy` | src/AGE.c:69-70 | `xmemcpy` puts the first `count` source elements at the start of the destination and leaves the rest of it untouched |
| `Vulkan.AndNonZeroIffSharesBit` | src/utils/vk_utils.c:210-212 | the C test `flags & match_flags` is non-zero exactly when the two masks have a set bit in common |
| `VkUtils.QfamsMatch` | src/utils/vk_utils.c:190-235 | `qfams_match` answers equal exactly when the candidate satisfies the spec field by field: a zero field is ignored, a non-zero flag mask needs one shared flag, and a non-zero count, timestamp width or granularity component needs that exact value; the all-zero spec matches every family |
| `VkUtils.ExtPropStrMatch` | src/utils/vk_utils.c:237-245 | a descriptor matches a bare name exactly when their bounded views agree; with the `VK_MAX_EXTENSION_NAME_SIZE` bound this is name equality |
| `VkUtils.ExtPropsMatch` | src/utils/vk_utils.c:247-256 | two descriptors match exactly when their names are equal; `specVersion` never matters, so the matcher is symmetric and reflexive |
| `VkUtils.CheckExts` | src/utils/vk_utils.c:167-188 | `check_exts` raises an error and answers false for any needle layout other than `str_t` or `VkExtensionProperties`; otherwise it answers true exactly when every requested name is the name of some supported extension |
| `VkUtils.NamesFoundAreContained` | src/utils/vk_utils.c:173-177 | with bare-name needles and the `VK_MAX_EXTENSION_NAME_SIZE` bound, the containment search succeeds exactly when every name is among the supported names |
| `VkUtils.PropsFoundAreContained` | src/utils/vk_utils.c:178-181 | with descriptor needles, the containment search succeeds exactly when every needle's name is among the supported names |
| `VkUtils.VkGetSupExts` | src/utils/vk_utils.c:10-36 | the instance provider yields the failed triple and raises an error exactly when a query fails or the allocation fails; otherwise it yields all the records of the fill query, with the descriptor size and the reported count, and raises nothing |
| `VkUtils.VkPdevGetSupExts` | src/utils/vk_utils.c:94-120 | the device extension provider has the same all-or-nothing outcome as the instance provider |
| `VkUtils.VkPdevGetQfamProps` | src/utils/vk_utils.c:70-92 | the queue-family provider fails, with the failed triple and an error, exactly when the allocation fails; otherwise it yields every family the fill query wrote, with the queue-family record size |
| `VkUtils.VkGetReqExts` | src/utils/vk_utils.c:38-68 | the required list is the failed triple plus an error when GLFW answers NULL or the allocation fails; otherwise it is exactly GLFW's list, with `str_t` elements and GLFW's count, because the engine's own additions are empty |
| `VkUtils.VkExtsSupported` | src/utils/vk_utils.c:122-135 | true exactly when the instance fetch succeeds and every requested extension is supported; an error is raised exactly when the fetch fails or the needle layout is unknown |
| `VkUtils.VkPdevHasQfam` | src/utils/vk_utils.c:137-149 | true exactly when the fetch succeeds and some queue family satisfies the spec; an error is raised exactly when the fetch fails |
| `VkUtils.VkPdevExtsSupported` | src/utils/vk_utils.c:151-164 | as `vk_exts_supported`, with the device's supported extensions as the haystack |
| `VkUtils.FlagsOnlySpecFindsOverlap` | src/utils/vk_utils.c:210-234 | a spec that sets only a flag mask finds a family exactly when some family shares a flag with the mask, whatever its queue count |
| `VkUtils.GraphicsQueryFindsGraphicsFamily` | src/utils/vk_utils.c:210-212 | asking for a graphics queue finds a family exactly when some family has the graphics bit |
| `VkUtils.FlagTestIsAnyOverlap` | src/utils/vk_utils.c:210-212 | a graphics-and-compute family satisfies a spec asking for graphics and transfer |
| `VkUtils.PrefixNameDoesNotMatch` | src/utils/vk_utils.c:237-245 | with the full bound, a name does not match a longer name it is a prefix of, as descriptor or as needle |
| `VkUtils.ShortBoundMatchesPrefix` | src/utils/vk_utils.c:237-245 | a bound that stops before the shorter name's terminator lets a prefix match |
| `VkUtils.NoNeedlesAreContained` | src/utils/vk_utils.c:187 | an empty needle array of a known layout is supported by any list, without an error |
| `VkUtils.MissingNameNotContained` | src/utils/vk_utils.c:167-188 | a name that no supported extension carries is not supported, and no error is raised |
| `Age.EngineCore.constructor` | src/AGE.c:7-12 | the static core starts zeroed: not initialised, holding the failed triple |
| `Age.EngineCore.InitVkReqExts` | src/AGE.c:52-83 | stores GLFW's list as `str_t` names when GLFW answers and allocation succeeds; otherwise stores the failed triple and raises an error |
| `Age.EngineCore.TermVkReqExts` | src/AGE.c:85-87 | releases the stored list's buffer and leaves the stored triple as it was |
| `Age.EngineCore.Init` | src/AGE.c:17-30 | the engine ends up initialised exactly when `glfwInit` returns `GLFW_TRUE` and the list was built; every failure raises an error and leaves it uninitialised; a failed `glfwInit` leaves the stored list alone |
| `Age.EngineCore.Term` | src/AGE.c:32-37 | the engine is not initialised afterwards, whatever its prior state; the list's buffer is released and the stored triple is kept |
| `Age.EngineCore.IsAgeInit` | src/AGE.c:39-41 | the stored flag, read without side effects; when it is true, a live required list is available |
| `Age.EngineCore.GetVkReqExts` | src/AGE.c:43-45 | the stored names, or NULL exactly when the failed triple is stored |
| `Age.EngineCore.GetVkReqExtsLen` | src/AGE.c:47-49 | the stored length; the cast to `uint32_t` loses nothing because the length came from a `uint32_t` |

## Left out

- Vulkan and GLFW calls are not modelled; their answers are parameters. This covers
  `vkEnumerateInstanceExtensionProperties`, `vkEnumerateDeviceExtensionProperties`,
  `vkGetPhysicalDeviceQueueFamilyProperties`, `glfwInit`, `glfwGetRequiredInstanceExtensions`
  and `glfwTerminate`. The physical-device handle is folded into the answers.
- Vulkan writes at most as many records as the caller allocated. The providers require this of
  the host (`Enumeration.Conforms`), along with counts that fit a `uint32_t`.
- Names are sequences of Dafny characters, and the bounds of `str_eq` and
  `VK_MAX_EXTENSION_NAME_SIZE` count characters rather than bytes. The two agree for the ASCII
  names Vulkan and GLFW report; `ExtName` would admit a non-ASCII name of up to 255 characters
  that does not fit the 256-byte field.
- `cuti` is not part of this model. `str_eq` is modelled as `strncmp(a, b, n) == 0` over
  NUL-free strings. `array_has` and `array_hasall` are modelled as linear searches. `xerr`
  becomes a boolean, and its error code (`XERR_UNDEFINED`) is dropped.
- `free`, pointer casts and byte reinterpretation are not modelled. The providers return the
  array instead of writing through a pointer. Freeing the required list is a ghost flag
  `reqExtsReleased`. `AGE_term` can free the same buffer twice and GLFW is not terminated when
  the list cannot be built: both are outside what a value model expresses.
- Repeated provider calls with the same host answers yield the same array. This holds because
  the methods are deterministic, and no lemma states it.
- The second `xmemcpy` in the list construction (`src/AGE.c:70`, `src/utils/vk_utils.c:55`)
  targets the start of the buffer, not the slot after GLFW's entries. With no extra extensions
  it copies nothing, so it is modelled as written.
- `include/utils/vk_utils.h` declares `vk_init`, `vk_term` and `is_vk_init`, but their
  definitions are not part of this model. Its `vk_exts_supported` prototype differs from the
  definition. The model follows the definition in `src/utils/vk_utils.c`.
- `include/core/AGE_err.h` lists error codes that the core never passes to `xerr`.
