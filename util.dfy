/**
 * The diagnostic helpers of proto::Util that the texture quad and the
 * benchmark rely on: the GPU memory probe (vendor dispatch by substring
 * search and the test-mode return rule) and the mapping of the PNG
 * decoder's error code to success. GL integer readings, the GL vendor string
 * and the decoder's output are inputs.
 */
module Util {
  import opened Wrappers

  /** A GLint. */
  newtype int32 = x: int | -0x8000_0000 <= x < 0x8000_0000

  /** What lodepng::decode hands back: an error code, RGBA bytes and the image size. */
  datatype LodepngOutput = LodepngOutput(error: nat, pixels: seq<bv8>, width: nat, height: nat)

  /** The decoder writes width * height * 4 bytes, so a nonempty buffer comes with positive sides. */
  predicate WellSized(out: LodepngOutput) {
    out.pixels != [] ==> out.width >= 1 && out.height >= 1
  }

  /** decode_png_image: success exactly when the decoder reports error code 0. */
  function DecodePngImage(out: LodepngOutput): (ok: bool)
    ensures ok <==> out.error == 0
  {
    if out.error != 0 then false else true
  }

  // ---------------------------------------------------------------------
  // Substring search (std::string::find)

  ghost predicate OccursAt(s: string, pattern: string, i: int) {
    0 <= i && i + |pattern| <= |s| && s[i .. i + |pattern|] == pattern
  }

  ghost predicate Contains(s: string, pattern: string) {
    exists i :: OccursAt(s, pattern, i)
  }

  /** The first occurrence of `pattern` in `s` at or after `from`. */
  function FindFrom(s: string, pattern: string, from: nat): (r: Option<nat>)
    ensures r.Some? ==> from <= r.value && OccursAt(s, pattern, r.value)
    ensures r.Some? ==> forall j :: from <= j < r.value ==> !OccursAt(s, pattern, j)
    ensures r.None? ==> forall j :: from <= j ==> !OccursAt(s, pattern, j)
    decreases |s| - from
  {
    if from + |pattern| > |s| then None
    else if s[from .. from + |pattern|] == pattern then Some(from)
    else FindFrom(s, pattern, from + 1)
  }

  /** std::string::find: the first occurrence, or npos (None) when there is none. */
  function Find(s: string, pattern: string): (r: Option<nat>)
    ensures r.None? <==> !Contains(s, pattern)
    ensures r.Some? ==> OccursAt(s, pattern, r.value) && forall j :: 0 <= j < r.value ==> !OccursAt(s, pattern, j)
  {
    FindFrom(s, pattern, 0)
  }

  // ---------------------------------------------------------------------
  // GPU memory probe

  datatype Vendor = NvidiaVendor | AmdVendor | UnsupportedVendor

  /**
   * Case-sensitive classification of the GL vendor string: "nvidia" or
   * "NVIDIA" anywhere selects the NVIDIA probe and is tested first; else
   * lower-case "ati" or "amd" anywhere selects the AMD probe.
   */
  function ClassifyVendor(vendor: string): (v: Vendor)
    ensures v == NvidiaVendor <==> Contains(vendor, "nvidia") || Contains(vendor, "NVIDIA")
    ensures v == AmdVendor <==>
      !Contains(vendor, "nvidia") && !Contains(vendor, "NVIDIA")
      && (Contains(vendor, "ati") || Contains(vendor, "amd"))
  {
    if Find(vendor, "nvidia").Some? || Find(vendor, "NVIDIA").Some? then NvidiaVendor
    else if Find(vendor, "ati").Some? || Find(vendor, "amd").Some? then AmdVendor
    else UnsupportedVendor
  }

  /** C's `/` on int: the quotient truncated toward zero. */
  function TruncatedDiv(a: int, b: int): (q: int)
    requires b > 0
  {
    if a >= 0 then a / b else -((-a) / b)
  }

  /**
   * What a probe returns for a reading in KB: in test mode the reading in
   * whole MB (`float(reading / 1024)`, C division), otherwise 0.0.
   */
  function ProbeReading(testMode: bool, reading: int32): (r: real)
    ensures !testMode ==> r == 0.0
    ensures r == r.Floor as real
    ensures testMode && reading >= 0 ==> r.Floor * 1024 <= reading as int < r.Floor * 1024 + 1024
    ensures testMode && reading < 0 ==> r.Floor * 1024 - 1024 < reading as int <= r.Floor * 1024
  {
    if testMode then TruncatedDiv(reading as int, 1024) as real else 0.0
  }

  /**
   * query_memory for a vendor string and the GL readings the two probes
   * would take. When no vendor matches in test mode the source falls off the
   * end of a function returning float: no value is defined (None).
   */
  function MemoryReading(testMode: bool, vendor: string, nvidiaAvailable: int32, amdFree: int32): (r: Option<real>)
    ensures r.None? <==>
      testMode && !Contains(vendor, "nvidia") && !Contains(vendor, "NVIDIA")
      && !Contains(vendor, "ati") && !Contains(vendor, "amd")
    ensures !testMode ==> r == Some(0.0)
    ensures Contains(vendor, "nvidia") || Contains(vendor, "NVIDIA") ==> r == Some(ProbeReading(testMode, nvidiaAvailable))
    ensures ClassifyVendor(vendor) == AmdVendor ==> r == Some(ProbeReading(testMode, amdFree))
  {
    match ClassifyVendor(vendor)
    case NvidiaVendor => Some(ProbeReading(testMode, nvidiaAvailable))
    case AmdVendor => Some(ProbeReading(testMode, amdFree))
    case UnsupportedVendor => if testMode then None else Some(0.0)
  }

  /** A pattern with a character that `s` lacks does not occur in `s`. */
  lemma AbsentChar(s: string, pattern: string, k: nat)
    requires k < |pattern| && pattern[k] !in s
    ensures !Contains(s, pattern)
  {
    forall i ensures !OccursAt(s, pattern, i) {
      if 0 <= i && i + |pattern| <= |s| {
        assert s[i .. i + |pattern|][k] == s[i + k];
      }
    }
  }

  /** NVIDIA's driver string selects the NVIDIA probe. */
  lemma NvidiaDriverString()
    ensures ClassifyVendor("NVIDIA Corporation") == NvidiaVendor
  {
    assert OccursAt("NVIDIA Corporation", "NVIDIA", 0);
  }

  /** Intel's driver string selects the AMD probe: "Corporation" contains "ati". */
  lemma IntelDriverStringIsAmd()
    ensures ClassifyVendor("Intel Corporation") == AmdVendor
  {
    var s := "Intel Corporation";
    assert OccursAt(s, "ati", 12);
    assert 'v' !in s && 'V' !in s;
    AbsentChar(s, "nvidia", 1);
    AbsentChar(s, "NVIDIA", 1);
  }

  /**
   * The search is case-sensitive: the ATI driver string and a plain "AMD"
   * match nothing, so in test mode query_memory has no defined result.
   */
  lemma AtiDriverStringIsUnsupported(nvidiaAvailable: int32, amdFree: int32)
    ensures ClassifyVendor("ATI Technologies Inc.") == UnsupportedVendor
    ensures ClassifyVendor("AMD") == UnsupportedVendor
    ensures MemoryReading(true, "ATI Technologies Inc.", nvidiaAvailable, amdFree) == None
    ensures MemoryReading(false, "ATI Technologies Inc.", nvidiaAvailable, amdFree) == Some(0.0)
  {
    var s := "ATI Technologies Inc.";
    assert 'v' !in s && 'N' !in s && 'a' !in s;
    AbsentChar(s, "nvidia", 1);
    AbsentChar(s, "NVIDIA", 0);
    AbsentChar(s, "ati", 0);
    AbsentChar(s, "amd", 0);
    assert 'n' !in "AMD" && 'N' !in "AMD" && 'a' !in "AMD";
    AbsentChar("AMD", "nvidia", 0);
    AbsentChar("AMD", "NVIDIA", 0);
    AbsentChar("AMD", "ati", 0);
    AbsentChar("AMD", "amd", 0);
  }

  /**
   * The static flags of Util that the probe reads. Only `in_test_mode` has
   * an effect; its initial value is a constructor argument.
   */
  class Util {
    var inTestMode: bool

    constructor (testMode: bool)
      ensures inTestMode == testMode
    {
      inTestMode := testMode;
    }

    /** query_gpu_mem_usage_nvidia, given the two NVX readings (KB). */
    method QueryGpuMemUsageNvidia(available: int32, evicted: int32) returns (r: real)
      ensures r == ProbeReading(inTestMode, available)
    {
      if inTestMode {
        r := TruncatedDiv(available as int, 1024) as real;
      } else {
        r := 0.0;
      }
    }

    /** query_gpu_mem_usage_amd, given the first TEXTURE_FREE_MEMORY_ATI reading (KB). */
    method QueryGpuMemUsageAmd(freeMemory: int32) returns (r: real)
      ensures r == ProbeReading(inTestMode, freeMemory)
    {
      if inTestMode {
        r := TruncatedDiv(freeMemory as int, 1024) as real;
      } else {
        r := 0.0;
      }
    }

    /** query_memory: records the mode, then dispatches on the vendor string. */
    method QueryMemory(testMode: bool, vendor: string, nvidiaAvailable: int32, nvidiaEvicted: int32, amdFree: int32)
      returns (r: Option<real>)
      modifies this
      ensures inTestMode == testMode
      ensures r == MemoryReading(testMode, vendor, nvidiaAvailable, amdFree)
    {
      inTestMode := testMode;
      if Find(vendor, "nvidia").Some? || Find(vendor, "NVIDIA").Some? {
        var reading := QueryGpuMemUsageNvidia(nvidiaAvailable, nvidiaEvicted);
        r := Some(reading);
      } else if Find(vendor, "ati").Some? || Find(vendor, "amd").Some? {
        var reading := QueryGpuMemUsageAmd(amdFree);
        r := Some(reading);
      } else if !testMode {
        r := Some(0.0);
      } else {
        // control reaches the end of a float function without a return
        r := None;
      }
    }
  }
}
