/**
 * The engine's process-wide core state (`src/AGE.c`): whether the engine is initialised and
 * the list of instance extensions it requires, built once by `AGE_init` and released by
 * `AGE_term`.
 */
module Age {
  import opened Wrappers
  import opened Cuti
  import opened Vulkan
  import opened VkUtils

  /** `struct AGE_core_s`, the one static instance of which is the engine's state. */
  class EngineCore {
    var isInit: bool
    var vkReqExts: Arrayable

    /** The buffer `vkReqExts` refers to has been handed back to the allocator. */
    ghost var reqExtsReleased: bool

    /** The required list is either the failed triple or a list of names whose length fits
        the `uint32_t` the accessors return; an initialised engine holds a live list. */
    ghost predicate Valid()
      reads this
    {
      && (vkReqExts == Null || (vkReqExts.Names? && |vkReqExts.names| < UINT32_LIMIT))
      && (isInit ==> vkReqExts.Names? && !reqExtsReleased)
    }

    /** Static storage starts zeroed: not initialised, no list. */
    constructor ()
      ensures Valid()
      ensures !isInit && vkReqExts == Null && !reqExtsReleased
    {
      isInit := false;
      vkReqExts := Null;
      reqExtsReleased := false;
    }

    /** `init_vk_req_exts`: builds the required-extension list from GLFW's and stores it, or
        stores the failed triple. An internal step of `Init`, which restores `Valid()` by
        setting `isInit` afterwards; on its own it neither needs nor keeps `Valid()`. */
    method InitVkReqExts(glfwReqExts: Option<seq<CStr>>, allocOk: bool) returns (raised: bool)
      requires glfwReqExts.Some? ==> |glfwReqExts.value| < UINT32_LIMIT
      modifies this`vkReqExts, this`reqExtsReleased
      ensures vkReqExts == (if glfwReqExts.Some? && allocOk then Names(glfwReqExts.value) else Null)
      ensures raised <==> vkReqExts == Null
      ensures !reqExtsReleased
    {
      vkReqExts, raised := VkGetReqExts(glfwReqExts, allocOk);
      reqExtsReleased := false;
    }

    /** `term_vk_req_exts`: releases the buffer of the required list; the stored triple is
        left as it was. An internal step of `Term`, which clears `isInit` so that `Valid()`
        holds again; on an initialised engine it alone would break `Valid()`. The C source
        never calls `term_vk_req_exts`: `AGE_term` frees the buffer itself (`src/AGE.c:33`),
        with the same effect. */
    method TermVkReqExts()
      modifies this`reqExtsReleased
      ensures reqExtsReleased == (old(reqExtsReleased) || vkReqExts.Names?)
    {
      reqExtsReleased := reqExtsReleased || vkReqExts.Names?;
    }

    /** `AGE_init`: initialises GLFW (whose answer is `glfwInitResult`), then builds the
        required list; the engine is initialised only if both succeed. */
    method Init(glfwInitResult: int, glfwReqExts: Option<seq<CStr>>, allocOk: bool)
      returns (raised: bool)
      requires Valid()
      requires glfwReqExts.Some? ==> |glfwReqExts.value| < UINT32_LIMIT
      modifies this
      ensures Valid()
      ensures isInit <==> glfwInitResult == GLFW_TRUE && glfwReqExts.Some? && allocOk
      ensures raised <==> !isInit
      ensures glfwInitResult == GLFW_TRUE ==>
                vkReqExts == (if glfwReqExts.Some? && allocOk then Names(glfwReqExts.value) else Null)
                && !reqExtsReleased
      ensures glfwInitResult != GLFW_TRUE ==>
                vkReqExts == old(vkReqExts) && reqExtsReleased == old(reqExtsReleased)
    {
      if glfwInitResult != GLFW_TRUE {
        isInit := false;
        return true;
      }

      var reqRaised := InitVkReqExts(glfwReqExts, allocOk);
      if vkReqExts == Null {
        isInit := false;
        return true;
      }

      isInit := true;
      raised := false;
    }

    /** `AGE_term`: releases the required list, terminates GLFW and marks the engine as not
        initialised, whatever state it was in. */
    method Term()
      requires Valid()
      modifies this
      ensures Valid()
      ensures !isInit
      ensures vkReqExts == old(vkReqExts)
      ensures reqExtsReleased == (old(reqExtsReleased) || vkReqExts.Names?)
    {
      TermVkReqExts();
      isInit := false;
    }

    /** `is_AGE_init`: the stored flag; an initialised engine has its required list at hand. */
    function IsAgeInit(): (r: bool)
      reads this
      requires Valid()
      ensures r ==> GetVkReqExts().Some? && !reqExtsReleased
    {
      isInit
    }

    /** `AGE_get_vk_req_exts`: the stored names, or NULL (`None`) for the failed triple. */
    function GetVkReqExts(): (r: Option<seq<CStr>>)
      reads this
      requires Valid()
      ensures r.None? <==> vkReqExts == Null
      ensures r.Some? ==> |r.value| == vkReqExts.Len()
    {
      if vkReqExts.Names? then Some(vkReqExts.names) else None
    }

    /** `AGE_get_vk_req_exts_len`: the stored length cast to `uint32_t`, which loses nothing. */
    function GetVkReqExtsLen(): (r: u32)
      reads this
      requires Valid()
      ensures r as int == vkReqExts.Len()
    {
      (vkReqExts.Len() % UINT32_LIMIT) as u32
    }
  }
}
