/**
 * Device performance classification: a score built from the CPU core count,
 * the device memory and the GPU renderer string, a penalty for mobile user
 * agents, and a tier ('low', 'medium', 'high') cached for the life of the
 * page. The tier then selects particle counts, bloom, antialiasing and
 * shader precision.
 */
module PerformanceDetector {
  import opened Wrappers

  datatype Tier = Low | Medium | High

  /** The tier as the string the source stores and passes around. */
  function TierName(t: Tier): string {
    match t
    case Low => "low"
    case Medium => "medium"
    case High => "high"
  }

  function Rank(t: Tier): nat {
    match t
    case Low => 0
    case Medium => 1
    case High => 2
  }

  /** What probing the WebGL context yields. */
  datatype GpuProbe =
    | NoWebGL                  // neither 'webgl' nor 'experimental-webgl' is available
    | NoDebugInfo              // no WEBGL_debug_renderer_info extension
    | Renderer(name: string)   // the unmasked renderer string

  /**
   * The device signals. `hardwareConcurrency` 0 stands for an absent value
   * and `deviceMemory` 0.0 for an absent one: both are falsy in the source.
   */
  datatype Signals = Signals(
    userAgent: string,
    hardwareConcurrency: nat,
    deviceMemory: real,
    gpu: GpuProbe)

  // ---------------------------------------------------------------------
  // Case-insensitive pattern matching on ASCII text (the /.../i regexes)

  function Lower(c: char): char {
    if 'A' <= c <= 'Z' then (c as int + 32) as char else c
  }

  function LowerAll(s: string): (t: string)
    ensures |t| == |s|
  {
    if s == [] then [] else [Lower(s[0])] + LowerAll(s[1..])
  }

  predicate StartsWith(s: string, p: string) {
    |p| <= |s| && s[..|p|] == p
  }

  /** p occurs somewhere in s. */
  predicate Contains(s: string, p: string) {
    StartsWith(s, p) || (s != [] && Contains(s[1..], p))
  }

  /** The characters a regex `.` does not match: \n, \r, U+2028 and U+2029. */
  predicate IsLineTerminator(c: char) {
    c == '\n' || c == '\r' || c == '\U{2028}' || c == '\U{2029}'
  }

  predicate NoLineTerminator(s: string) {
    forall i :: 0 <= i < |s| ==> !IsLineTerminator(s[i])
  }

  /** b occurs in s before any line terminator (the regex `.*b` anchored at the start of s). */
  predicate ContainsOnLine(s: string, b: string) {
    StartsWith(s, b) || (s != [] && !IsLineTerminator(s[0]) && ContainsOnLine(s[1..], b))
  }

  /** a occurs in s and b follows it on the same line (the regex `a.*b`). */
  predicate ContainsThen(s: string, a: string, b: string) {
    (StartsWith(s, a) && ContainsOnLine(s[|a|..], b)) || (s != [] && ContainsThen(s[1..], a, b))
  }

  /** /Android|webOS|iPhone|iPad|iPod|BlackBerry|IEMobile|Opera Mini/i */
  predicate IsMobileAgent(userAgent: string) {
    var ua := LowerAll(userAgent);
    Contains(ua, "android") || Contains(ua, "webos") || Contains(ua, "iphone")
    || Contains(ua, "ipad") || Contains(ua, "ipod") || Contains(ua, "blackberry")
    || Contains(ua, "iemobile") || Contains(ua, "opera mini")
  }

  /** /Apple GPU|Apple M/i */
  predicate IsApple(name: string) {
    Contains(LowerAll(name), "apple gpu") || Contains(LowerAll(name), "apple m")
  }

  /** /Intel.*HD|Intel.*UHD/i */
  predicate IsIntelIntegrated(name: string) {
    ContainsThen(LowerAll(name), "intel", "hd") || ContainsThen(LowerAll(name), "intel", "uhd")
  }

  /** /NVIDIA|AMD|Radeon/i */
  predicate IsDedicated(name: string) {
    Contains(LowerAll(name), "nvidia") || Contains(LowerAll(name), "amd") || Contains(LowerAll(name), "radeon")
  }

  // ---------------------------------------------------------------------
  // The score, signal by signal

  /** `navigator.hardwareConcurrency || 2` */
  function EffectiveCores(s: Signals): (cores: nat)
    ensures cores >= 1
    ensures s.hardwareConcurrency > 0 ==> cores == s.hardwareConcurrency
  {
    if s.hardwareConcurrency == 0 then 2 else s.hardwareConcurrency
  }

  function CoreScore(s: Signals): int {
    var cores := EffectiveCores(s);
    if cores >= 8 then 3 else if cores >= 4 then 2 else 1
  }

  function MemoryScore(s: Signals): int {
    if s.deviceMemory != 0.0 then
      if s.deviceMemory >= 8.0 then 3 else if s.deviceMemory >= 4.0 then 2 else 1
    else 2
  }

  /** The first renderer pattern that matches decides; Apple is tried first, then Intel, then the dedicated vendors. */
  function GpuScore(s: Signals): int {
    match s.gpu
    case NoWebGL => 1
    case NoDebugInfo => 2
    case Renderer(name) =>
      if IsApple(name) then 3
      else if IsIntelIntegrated(name) then 1
      else if IsDedicated(name) then 3
      else 2
  }

  /** The score before the mobile penalty. */
  function RawScore(s: Signals): (score: int)
    ensures 3 <= score <= 9
  {
    CoreScore(s) + MemoryScore(s) + GpuScore(s)
  }

  /** The score after the mobile penalty `Math.max(1, score - 2)`. */
  function FinalScore(s: Signals): (score: int)
    ensures 1 <= score <= 9
    ensures !IsMobileAgent(s.userAgent) ==> score == RawScore(s)
    ensures IsMobileAgent(s.userAgent) ==> score == RawScore(s) - 2
  {
    var raw := RawScore(s);
    if IsMobileAgent(s.userAgent) then (if raw - 2 > 1 then raw - 2 else 1) else raw
  }

  function TierForScore(score: int): Tier {
    if score >= 7 then High else if score >= 5 then Medium else Low
  }

  /** The tier a fresh probe of the signals yields. */
  function Classify(s: Signals): Tier {
    TierForScore(FinalScore(s))
  }

  // ---------------------------------------------------------------------
  // Properties of the classification

  /** A higher score never gives a lower tier. */
  lemma TierMonotone(a: int, b: int)
    requires a <= b
    ensures Rank(TierForScore(a)) <= Rank(TierForScore(b))
  {
  }

  /** A mobile device is classified 'high' exactly when all three signals score 3. */
  lemma MobileHighIffAllSignalsTop(s: Signals)
    requires IsMobileAgent(s.userAgent)
    ensures Classify(s) == High <==> CoreScore(s) == 3 && MemoryScore(s) == 3 && GpuScore(s) == 3
  {
  }

  /** A missing core count counts as two cores and scores 1. */
  lemma MissingCoresScoreOne(s: Signals)
    requires s.hardwareConcurrency == 0
    ensures CoreScore(s) == 1
  {
  }

  /** An Intel integrated renderer scores 1 even when a dedicated vendor's name also appears, unless it is Apple's. */
  lemma IntelWinsOverDedicated(s: Signals)
    requires s.gpu.Renderer? && !IsApple(s.gpu.name) && IsIntelIntegrated(s.gpu.name)
    ensures GpuScore(s) == 1
  {
  }

  /**
   * The gap `.*` before b matches exactly when b starts at some position k
   * and no line terminator comes before k.
   */
  lemma {:induction false} ContainsOnLineIff(s: string, b: string)
    ensures ContainsOnLine(s, b) <==>
            exists k :: 0 <= k <= |s| && StartsWith(s[k..], b) && NoLineTerminator(s[..k])
  {
    if StartsWith(s, b) {
      assert s[0..] == s && s[..0] == [];
    } else if s == [] {
    } else {
      ContainsOnLineIff(s[1..], b);
      if ContainsOnLine(s, b) {
        var k :| 0 <= k <= |s[1..]| && StartsWith(s[1..][k..], b) && NoLineTerminator(s[1..][..k]);
        assert s[k + 1..] == s[1..][k..];
        assert s[..k + 1] == [s[0]] + s[1..][..k];
      }
      forall k | 0 <= k <= |s| && StartsWith(s[k..], b) && NoLineTerminator(s[..k])
        ensures ContainsOnLine(s, b)
      {
        assert k != 0 by { assert s[0..] == s; }
        assert s[1..][k - 1..] == s[k..];
        assert s[1..][..k - 1] == s[1..k];
        assert s[0] == s[..k][0];
      }
    }
  }

  /** After a line break, the gap `.*` can no longer reach b. */
  lemma LineBreakEndsGap(tail: string, b: string)
    requires b != [] && !IsLineTerminator(b[0])
    ensures !ContainsOnLine(['\n'] + tail, b)
  {
    assert (['\n'] + tail)[0] == '\n';
  }

  /** No "intel" starts anywhere after the first character of "intel\nhd". */
  lemma IntelOnlyAtStart(k: nat)
    requires 1 <= k <= 8
    ensures !StartsWith("intel\nhd"[k..], "intel")
  {
    var t := "intel\nhd"[k..];
    if |t| >= 5 {
      assert t[0] == "intel\nhd"[k] && "intel\nhd"[k] != 'i';
      assert t[..5][0] != "intel"[0];
    }
  }

  /** "Intel\nHD" has "HD" only on the line after "Intel", so it is not Intel integrated graphics. */
  lemma IntelBreakHDNotIntegrated()
    ensures !IsIntelIntegrated("Intel\nHD")
  {
    var name := "intel\nhd";
    assert LowerAll("Intel\nHD") == name;
    assert name[5..] == ['\n'] + "hd";
    LineBreakEndsGap("hd", "hd");
    LineBreakEndsGap("hd", "uhd");
    var k := 8;
    while k > 0
      invariant 0 <= k <= 8
      invariant !ContainsThen(name[k..], "intel", "hd") && !ContainsThen(name[k..], "intel", "uhd")
    {
      k := k - 1;
      if k > 0 {
        IntelOnlyAtStart(k);
      }
      assert name[k..][1..] == name[k + 1..];
    }
    assert name[0..] == name;
  }

  /** Every character of a pattern that occurs in s is a character of s. */
  lemma {:induction false} ContainsChars(s: string, p: string)
    requires Contains(s, p)
    ensures forall i :: 0 <= i < |p| ==> p[i] in s
  {
    if StartsWith(s, p) {
      forall i | 0 <= i < |p| ensures p[i] in s {
        assert p[i] == s[i];
      }
    } else {
      ContainsChars(s[1..], p);
      forall i | 0 <= i < |p| ensures p[i] in s {
        assert p[i] in s[1..];
      }
    }
  }

  /** A pattern with a character s lacks does not occur in s. */
  lemma MissingCharBlocks(s: string, p: string, c: char)
    requires c in p && c !in s
    ensures !Contains(s, p)
  {
    if Contains(s, p) {
      ContainsChars(s, p);
    }
  }

  /** "Intel\nHD" names no Apple and no dedicated GPU: each of those patterns has an 'a' or a 'v'. */
  lemma IntelBreakHDNoVendor()
    ensures !IsApple("Intel\nHD") && !IsDedicated("Intel\nHD")
  {
    var name := "intel\nhd";
    assert LowerAll("Intel\nHD") == name;
    assert 'a' !in name && 'v' !in name;
    MissingCharBlocks(name, "apple gpu", 'a');
    MissingCharBlocks(name, "apple m", 'a');
    MissingCharBlocks(name, "nvidia", 'v');
    MissingCharBlocks(name, "amd", 'a');
    MissingCharBlocks(name, "radeon", 'a');
  }

  /**
   * `.` in /Intel.*HD|Intel.*UHD/i stops at a line break: the renderer
   * string "Intel\nHD" falls through to the unknown-GPU branch and scores 2.
   */
  lemma IntelPatternStaysOnOneLine(s: Signals)
    requires s.gpu == Renderer("Intel\nHD")
    ensures GpuScore(s) == 2
  {
    IntelBreakHDNotIntegrated();
    IntelBreakHDNoVendor();
  }

  // ---------------------------------------------------------------------
  // The module-level cache

  /** The module: its `cachedTier` variable lives as long as the page. */
  class Detector {
    var cachedTier: Option<Tier>

    constructor ()
      ensures cachedTier == None
    {
      cachedTier := None;
    }

    /**
     * detectPerformanceTier: the first call probes the signals and caches
     * the tier; every later call returns the cached tier unchanged, whatever
     * the signals say by then.
     */
    method DetectPerformanceTier(s: Signals) returns (tier: Tier)
      modifies this
      ensures old(cachedTier).Some? ==> tier == old(cachedTier).value && cachedTier == old(cachedTier)
      ensures old(cachedTier).None? ==> tier == Classify(s) && cachedTier == Some(tier)
    {
      if cachedTier.Some? {
        return cachedTier.value;
      }
      var score := 0;
      var isMobile := IsMobileAgent(s.userAgent);

      var cores := if s.hardwareConcurrency == 0 then 2 else s.hardwareConcurrency;
      if cores >= 8 {
        score := score + 3;
      } else if cores >= 4 {
        score := score + 2;
      } else {
        score := score + 1;
      }

      if s.deviceMemory != 0.0 {
        if s.deviceMemory >= 8.0 {
          score := score + 3;
        } else if s.deviceMemory >= 4.0 {
          score := score + 2;
        } else {
          score := score + 1;
        }
      } else {
        score := score + 2;
      }

      match s.gpu {
        case Renderer(name) =>
          if IsApple(name) {
            score := score + 3;
          } else if IsIntelIntegrated(name) {
            score := score + 1;
          } else if IsDedicated(name) {
            score := score + 3;
          } else {
            score := score + 2;
          }
        case NoDebugInfo =>
          score := score + 2;
        case NoWebGL =>
          score := score + 1;
      }
      assert score == RawScore(s);

      if isMobile {
        score := if 1 > score - 2 then 1 else score - 2;
      }

      if score >= 7 {
        cachedTier := Some(High);
      } else if score >= 5 {
        cachedTier := Some(Medium);
      } else {
        cachedTier := Some(Low);
      }
      tier := cachedTier.value;
    }
  }

  /** Two calls in a row return the same tier, even if the signals changed in between. */
  method DetectTwice(d: Detector, first: Signals, second: Signals) returns (a: Tier, b: Tier)
    modifies d
    ensures a == b
    ensures old(d.cachedTier).None? ==> a == Classify(first)
  {
    a := d.DetectPerformanceTier(first);
    b := d.DetectPerformanceTier(second);
  }

  // ---------------------------------------------------------------------
  // Tier-dependent configuration

  datatype ParticleConfig = ParticleConfig(smallFields: nat, smallParticles: nat, largeFields: nat, largeParticles: nat)

  const HighConfig := ParticleConfig(25, 300, 12, 12)
  const MediumConfig := ParticleConfig(15, 200, 8, 10)
  const LowConfig := ParticleConfig(8, 100, 4, 6)

  /** Every count of a is at most the matching count of b. */
  predicate AtMost(a: ParticleConfig, b: ParticleConfig) {
    a.smallFields <= b.smallFields && a.smallParticles <= b.smallParticles
    && a.largeFields <= b.largeFields && a.largeParticles <= b.largeParticles
  }

  /** getParticleConfig: any tier string it does not recognise gets the medium numbers. */
  function GetParticleConfig(tier: string): (c: ParticleConfig)
    ensures AtMost(LowConfig, c) && AtMost(c, HighConfig)
    ensures tier != "high" && tier != "low" ==> c == MediumConfig
  {
    match tier
    case "high" => HighConfig
    case "medium" => MediumConfig
    case "low" => LowConfig
    case _ => MediumConfig
  }

  /** A higher tier never gets fewer fields or particles. */
  lemma ParticleConfigMonotone(a: Tier, b: Tier)
    requires Rank(a) <= Rank(b)
    ensures AtMost(GetParticleConfig(TierName(a)), GetParticleConfig(TierName(b)))
  {
  }

  /** shouldEnableBloom: on for 'high' and 'medium' only. */
  function ShouldEnableBloom(tier: string): (on: bool)
    ensures on ==> AtMost(MediumConfig, GetParticleConfig(tier))
    ensures on <==> tier == TierName(High) || tier == TierName(Medium)
  {
    tier == "high" || tier == "medium"
  }

  /** shouldEnableAntialias: on for 'high' only, so never without bloom. */
  function ShouldEnableAntialias(tier: string): (on: bool)
    ensures on ==> ShouldEnableBloom(tier)
    ensures on <==> tier == TierName(High)
  {
    tier == "high"
  }

  /** getGLPrecision: 'highp' exactly where antialiasing is on, 'mediump' elsewhere. */
  function GetGLPrecision(tier: string): (p: string)
    ensures p == "highp" <==> ShouldEnableAntialias(tier)
    ensures p == "highp" || p == "mediump"
  {
    if tier == "high" then "highp" else "mediump"
  }

  // ---------------------------------------------------------------------
  // The default argument `tier = detectPerformanceTier()`

  /**
   * The tier name a selector works with: the argument when one is passed,
   * otherwise a detection (which reads and fills the cache).
   */
  method ResolveTier(d: Detector, s: Signals, tier: Option<string>) returns (name: string)
    modifies d
    ensures tier.Some? ==> name == tier.value && d.cachedTier == old(d.cachedTier)
    ensures tier.None? && old(d.cachedTier).Some? ==>
              name == TierName(old(d.cachedTier).value) && d.cachedTier == old(d.cachedTier)
    ensures tier.None? && old(d.cachedTier).None? ==>
              name == TierName(Classify(s)) && d.cachedTier == Some(Classify(s))
  {
    if tier.Some? {
      name := tier.value;
    } else {
      var detected := d.DetectPerformanceTier(s);
      name := TierName(detected);
    }
  }

  /**
   * getParticleConfig(), shouldEnableBloom(), shouldEnableAntialias() and
   * getGLPrecision(), each called without a tier: the first call detects and
   * caches, so all four settings follow one tier even if the signals differ
   * from call to call.
   */
  method DefaultSettings(d: Detector, s1: Signals, s2: Signals, s3: Signals, s4: Signals)
    returns (config: ParticleConfig, bloom: bool, antialias: bool, precision: string)
    modifies d
    ensures d.cachedTier.Some?
    ensures old(d.cachedTier).Some? ==> d.cachedTier == old(d.cachedTier)
    ensures old(d.cachedTier).None? ==> d.cachedTier == Some(Classify(s1))
    ensures var name := TierName(d.cachedTier.value);
            && config == GetParticleConfig(name)
            && bloom == ShouldEnableBloom(name)
            && antialias == ShouldEnableAntialias(name)
            && precision == GetGLPrecision(name)
    ensures antialias ==> bloom
    ensures precision == "highp" <==> antialias
  {
    var t1 := ResolveTier(d, s1, None);
    config := GetParticleConfig(t1);
    var t2 := ResolveTier(d, s2, None);
    bloom := ShouldEnableBloom(t2);
    var t3 := ResolveTier(d, s3, None);
    antialias := ShouldEnableAntialias(t3);
    var t4 := ResolveTier(d, s4, None);
    precision := GetGLPrecision(t4);
  }
}
