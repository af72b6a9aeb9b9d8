/**
 * The analysis worker's pure parts: the retry decision for a failed item
 * and its back-off delay, the metadata hash, and the extension-based MIME
 * type and language guesses.
 */
module Worker {
  import opened Text
  import opened Wrappers
  import Paths
  import Ingest
  import AnalysisQueue

  type WorkItem = AnalysisQueue.WorkItem

  function Pow2(k: nat): (r: nat)
    ensures r >= 1
  {
    if k == 0 then 1 else 2 * Pow2(k - 1)
  }

  /**
   * `calculateBackoff`: the base delay times 2^(retries - 1). For a retry
   * count below 1 the power is a fraction and the float product is cut to
   * whole nanoseconds.
   */
  function Backoff(retryDelay: nat, retries: int): nat
  {
    if retries >= 1 then Scale(retryDelay, retries - 1) else Halve(retryDelay, 1 - retries)
  }

  /** `d` halved `k` times, rounding down: the whole part of d / 2^k. */
  function Halve(d: nat, k: nat): nat
  {
    if k == 0 then d else Halve(d, k - 1) / 2
  }

  /** `d` doubled `k` times. */
  function Scale(d: nat, k: nat): nat
  {
    if k == 0 then d else 2 * Scale(d, k - 1)
  }

  /** Each further retry waits twice as long, starting from the base delay. */
  lemma BackoffDoubles(retryDelay: nat, retries: int)
    requires retries >= 1
    ensures Backoff(retryDelay, 1) == retryDelay
    ensures Backoff(retryDelay, retries + 1) == 2 * Backoff(retryDelay, retries)
    ensures Backoff(retryDelay, retries) == retryDelay * Pow2(retries - 1)
  {
    ScaleIsProduct(retryDelay, retries - 1);
  }

  lemma {:induction false} ScaleIsProduct(d: nat, k: nat)
    ensures Scale(d, k) == d * Pow2(k)
  {
    if k > 0 {
      ScaleIsProduct(d, k - 1);
      assert d * Pow2(k) == 2 * (d * Pow2(k - 1));
    }
  }

  /** What became of a work item after one attempt. */
  datatype Outcome =
    | Completed
    | Requeued(item: WorkItem, delay: nat)
    | AnalysisFailed
    | PersistenceFailed

  /**
   * `processItem`: a failed analysis or a failed graph write is retried,
   * with the retry count raised by one and an exponential delay, while the
   * count is below `maxRetries`; otherwise the failure is final.
   */
  function ProcessItem(item: WorkItem, maxRetries: int, retryDelay: nat, analysisOk: bool, persistOk: bool): (o: Outcome)
    ensures o == Completed <==> analysisOk && persistOk
    ensures o.Requeued? <==> !(analysisOk && persistOk) && item.retries < maxRetries
    ensures o.Requeued? ==>
      o.item == item.(retries := item.retries + 1) && o.delay == Backoff(retryDelay, item.retries + 1)
    ensures o == AnalysisFailed <==> !analysisOk && item.retries >= maxRetries
    ensures o == PersistenceFailed <==> analysisOk && !persistOk && item.retries >= maxRetries
  {
    if !analysisOk || !persistOk then
      if item.retries < maxRetries then
        var next := item.(retries := item.retries + 1);
        Requeued(next, Backoff(retryDelay, next.retries))
      else if !analysisOk then AnalysisFailed
      else PersistenceFailed
    else Completed
  }

  /** The item after `k` attempts that all failed in analysis, or `None` once it was given up. */
  function AfterFailures(item: WorkItem, maxRetries: int, retryDelay: nat, k: nat): Option<WorkItem>
  {
    if k == 0 then Some(item)
    else match AfterFailures(item, maxRetries, retryDelay, k - 1)
      case None => None
      case Some(it) =>
        match ProcessItem(it, maxRetries, retryDelay, false, true)
        case Requeued(next, _) => Some(next)
        case _ => None
  }

  /**
   * An item that keeps failing is retried exactly while its count is below
   * the limit: after `k` failures it is back with `k` more retries as long
   * as that stays within `maxRetries`, and the next failure gives up.
   */
  lemma {:induction false} FailuresAreBounded(item: WorkItem, maxRetries: int, retryDelay: nat, k: nat)
    requires item.retries + k <= maxRetries + 1
    ensures item.retries + k <= maxRetries ==>
      AfterFailures(item, maxRetries, retryDelay, k) == Some(item.(retries := item.retries + k))
    ensures item.retries + k == maxRetries + 1 && k > 0 ==> AfterFailures(item, maxRetries, retryDelay, k) == None
  {
    if k > 0 {
      FailuresAreBounded(item, maxRetries, retryDelay, k - 1);
      var prev := item.(retries := item.retries + k - 1);
      assert AfterFailures(item, maxRetries, retryDelay, k - 1) == Some(prev);
      assert prev.(retries := prev.retries + 1) == item.(retries := item.retries + k);
    }
  }

  // The metadata hash: `path|size|modTimeNanos` folded as a base-31
  // polynomial over its bytes in 64-bit unsigned arithmetic.

  const Modulus: nat := 0x1_0000_0000_0000_0000

  /** The bytes of an ASCII string. */
  function Bytes(s: String): (b: seq<Ingest.Byte>)
    ensures |b| == |s|
  {
    seq(|s|, i requires 0 <= i < |s| => (s[i] as int) % 256)
  }

  function MetadataString(path: String, size: int, modTimeNanos: int): String
  {
    path + "|" + IntString(size) + "|" + IntString(modTimeNanos)
  }

  /** The hash as the loop computes it: multiply, add, wrap, byte by byte. */
  function WrappingHash(bs: seq<Ingest.Byte>): (h: nat)
    ensures h < Modulus
  {
    if |bs| == 0 then 0 else (WrappingHash(bs[..|bs| - 1]) * 31 + bs[|bs| - 1]) % Modulus
  }

  /** The same polynomial without wrap-around. */
  function ExactHash(bs: seq<Ingest.Byte>): nat
  {
    if |bs| == 0 then 0 else ExactHash(bs[..|bs| - 1]) * 31 + bs[|bs| - 1]
  }

  lemma MulAddMod(a: nat, b: nat)
    ensures ((a % Modulus) * 31 + b) % Modulus == (a * 31 + b) % Modulus
  {
    var q := a / Modulus;
    assert a == q * Modulus + a % Modulus;
    assert a * 31 + b == ((a % Modulus) * 31 + b) + (q * 31) * Modulus;
    AddMultipleMod((a % Modulus) * 31 + b, q * 31);
  }

  lemma AddMultipleMod(x: nat, k: nat)
    ensures (x + k * Modulus) % Modulus == x % Modulus
  {
    var r := x % Modulus;
    var q := x / Modulus;
    assert x + k * Modulus == (q + k) * Modulus + r;
  }

  /** Wrapping at every step gives the exact polynomial reduced modulo 2^64. */
  lemma {:induction false} WrappingIsExactMod(bs: seq<Ingest.Byte>)
    ensures WrappingHash(bs) == ExactHash(bs) % Modulus
  {
    if |bs| > 0 {
      var init := bs[..|bs| - 1];
      WrappingIsExactMod(init);
      MulAddMod(ExactHash(init), bs[|bs| - 1]);
    }
  }

  function HexChar(d: nat): char
    requires d < 16
  {
    if d < 10 then ('0' as int + d) as char else ('a' as int + d - 10) as char
  }

  function HexDigitValue(c: char): nat
  {
    if '0' <= c <= '9' then c as int - '0' as int
    else if 'a' <= c <= 'f' then c as int - 'a' as int + 10
    else 0
  }

  function Pow16(k: nat): (r: nat)
    ensures r >= 1
  {
    if k == 0 then 1 else 16 * Pow16(k - 1)
  }

  /** `%0*x`: the last `width` lower-case hex digits of `n`, zero padded. */
  function Hex(n: nat, width: nat): (s: String)
    ensures |s| == width
  {
    if width == 0 then [] else Hex(n / 16, width - 1) + [HexChar(n % 16)]
  }

  function HexValue(s: String): nat
  {
    if |s| == 0 then 0 else HexValue(s[..|s| - 1]) * 16 + HexDigitValue(s[|s| - 1])
  }

  /** Hex formatting loses nothing for a number that fits the width. */
  lemma {:induction false} HexRoundTrip(n: nat, width: nat)
    requires n < Pow16(width)
    ensures HexValue(Hex(n, width)) == n
  {
    if width > 0 {
      assert n / 16 < Pow16(width - 1);
      HexRoundTrip(n / 16, width - 1);
      var s := Hex(n, width);
      assert s[..|s| - 1] == Hex(n / 16, width - 1);
      assert HexDigitValue(HexChar(n % 16)) == n % 16;
    }
  }

  lemma Pow16Is64Bit()
    ensures Pow16(16) == Modulus
  {
    assert Pow16(1) == 0x10;
    assert Pow16(2) == 0x100;
    assert Pow16(3) == 0x1000;
    assert Pow16(4) == 0x1_0000;
    assert Pow16(5) == 0x10_0000;
    assert Pow16(6) == 0x100_0000;
    assert Pow16(7) == 0x1000_0000;
    assert Pow16(8) == 0x1_0000_0000;
    assert Pow16(9) == 0x10_0000_0000;
    assert Pow16(10) == 0x100_0000_0000;
    assert Pow16(11) == 0x1000_0000_0000;
    assert Pow16(12) == 0x1_0000_0000_0000;
    assert Pow16(13) == 0x10_0000_0000_0000;
    assert Pow16(14) == 0x100_0000_0000_0000;
    assert Pow16(15) == 0x1000_0000_0000_0000;
  }

  /** `computeMetadataHash`: the folding loop, then 16 hex digits. */
  method ComputeMetadataHash(path: String, size: int, modTimeNanos: int) returns (h: String)
    ensures h == Hex(WrappingHash(Bytes(MetadataString(path, size, modTimeNanos))), 16)
  {
    var data := Bytes(MetadataString(path, size, modTimeNanos));
    var sum: nat := 0;
    var i := 0;
    while i < |data|
      invariant 0 <= i <= |data|
      invariant sum == WrappingHash(data[..i])
    {
      assert data[..i + 1][..i] == data[..i];
      sum := (sum * 31 + data[i]) % Modulus;
      i := i + 1;
    }
    assert data[..i] == data;
    h := Hex(sum, 16);
  }

  /** The metadata hash is 16 hex digits that spell the polynomial of the bytes modulo 2^64. */
  lemma MetadataHashMeaning(path: String, size: int, modTimeNanos: int)
    ensures var bs := Bytes(MetadataString(path, size, modTimeNanos));
      var h := Hex(WrappingHash(bs), 16);
      |h| == 16 && HexValue(h) == ExactHash(bs) % Modulus
  {
    var bs := Bytes(MetadataString(path, size, modTimeNanos));
    WrappingIsExactMod(bs);
    Pow16Is64Bit();
    HexRoundTrip(WrappingHash(bs), 16);
  }

  // Extension-based guesses.

  const MimeExtensions: set<String> :=
    {".go", ".py", ".js", ".ts", ".md", ".markdown", ".json", ".yaml", ".yml", ".xml",
     ".html", ".htm", ".css", ".txt", ".csv"}

  /**
   * `detectMIMEType`: a fixed table of extensions; for any other extension
   * content that opens with `{` or `[` is JSON and the rest is octet-stream.
   */
  function DetectMimeType(path: String, content: seq<Ingest.Byte>): (m: String)
    ensures Paths.Ext(path) !in MimeExtensions ==>
      (m == "application/json" <==> |content| > 0 && (content[0] == '{' as int || content[0] == '[' as int))
      && (m != "application/json" ==> m == "application/octet-stream")
  {
    var ext := Paths.Ext(path);
    if ext == ".go" then "text/x-go"
    else if ext == ".py" then "text/x-python"
    else if ext == ".js" then "text/javascript"
    else if ext == ".ts" then "text/typescript"
    else if ext == ".md" || ext == ".markdown" then "text/markdown"
    else if ext == ".json" then "application/json"
    else if ext == ".yaml" || ext == ".yml" then "text/yaml"
    else if ext == ".xml" then "application/xml"
    else if ext == ".html" || ext == ".htm" then "text/html"
    else if ext == ".css" then "text/css"
    else if ext == ".txt" then "text/plain"
    else if ext == ".csv" then "text/csv"
    else if |content| > 0 && (content[0] == '{' as int || content[0] == '[' as int) then "application/json"
    else "application/octet-stream"
  }

  const LanguageExtensions: set<String> :=
    {".go", ".py", ".js", ".ts", ".java", ".c", ".cpp", ".cc", ".cxx", ".rs", ".rb", ".php",
     ".cs", ".swift", ".kt", ".kts", ".scala", ".sh", ".bash", ".sql"}

  /** `detectLanguage`: a language name for listed extensions, "" for every other. */
  function DetectLanguage(path: String): (lang: String)
    ensures lang == [] <==> Paths.Ext(path) !in LanguageExtensions
  {
    var ext := Paths.Ext(path);
    if ext == ".go" then "go"
    else if ext == ".py" then "python"
    else if ext == ".js" then "javascript"
    else if ext == ".ts" then "typescript"
    else if ext == ".java" then "java"
    else if ext == ".c" then "c"
    else if ext == ".cpp" || ext == ".cc" || ext == ".cxx" then "cpp"
    else if ext == ".rs" then "rust"
    else if ext == ".rb" then "ruby"
    else if ext == ".php" then "php"
    else if ext == ".cs" then "csharp"
    else if ext == ".swift" then "swift"
    else if ext == ".kt" || ext == ".kts" then "kotlin"
    else if ext == ".scala" then "scala"
    else if ext == ".sh" || ext == ".bash" then "bash"
    else if ext == ".sql" then "sql"
    else ""
  }
}
