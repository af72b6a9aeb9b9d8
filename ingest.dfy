/**
 * The ingest decision: the coarse kind of a file (from its MIME type, its
 * extension and a byte sample) and the processing mode chosen from the
 * kind, the path configuration and the size.
 */
module Ingest {
  import opened Text
  import opened Wrappers
  import opened Config

  type Byte = b: int | 0 <= b < 256

  datatype Kind = TextKind | Structured | Document | Image | Archive | Media | Binary | Unknown
  datatype Mode = Chunk | MetadataOnly | Skip

  const ReasonTooLarge: String := "too_large"
  const ReasonBinary: String := "binary"
  const ReasonArchive: String := "archive"
  const ReasonMedia: String := "media"
  const ReasonImage: String := "image"
  const ReasonVisionDisabled: String := "vision_disabled"
  const ReasonUnsupported: String := "unsupported"

  /** Files above this many bytes are never chunked. */
  const MaxChunkBytes: int := 100 * 1024 * 1024

  /**
   * The decision table. `cfg` is `None` when the file has no path
   * configuration.
   */
  function Decide(kind: Kind, cfg: Option<PathConfig>, size: int): (r: (Mode, String))
    ensures size > MaxChunkBytes ==> r == (MetadataOnly, ReasonTooLarge)
    ensures size <= MaxChunkBytes ==>
      (r.0 == Chunk <==> kind in {TextKind, Structured, Document})
      && (r.0 == Skip <==> kind == Unknown)
      && (r.0 == Chunk ==> r.1 == [])
    ensures size <= MaxChunkBytes && kind == Image ==>
      (r.1 == ReasonVisionDisabled <==> cfg.Some? && cfg.value.useVision == Some(false))
  {
    if size > MaxChunkBytes then (MetadataOnly, ReasonTooLarge)
    else match kind
      case TextKind => (Chunk, [])
      case Structured => (Chunk, [])
      case Document => (Chunk, [])
      case Image =>
        if cfg.Some? && cfg.value.useVision == Some(false) then (MetadataOnly, ReasonVisionDisabled)
        else (MetadataOnly, ReasonImage)
      case Archive => (MetadataOnly, ReasonArchive)
      case Media => (MetadataOnly, ReasonMedia)
      case Binary => (MetadataOnly, ReasonBinary)
      case Unknown => (Skip, ReasonUnsupported)
  }

  /** Every file that is not chunked has a reason, and a skipped file is unsupported. */
  lemma DecideReasons(kind: Kind, cfg: Option<PathConfig>, size: int)
    ensures var (mode, reason) := Decide(kind, cfg, size);
      (mode == Chunk <==> reason == [])
      && (mode == Skip ==> reason == ReasonUnsupported)
      && (kind == Image && size <= MaxChunkBytes ==> reason in {ReasonImage, ReasonVisionDisabled})
  {
  }

  // MIME classes, on the lower-cased MIME type.

  predicate IsTextMime(m: String)
  {
    HasPrefix(m, "text/")
    || m in {"application/javascript", "application/x-ndjson", "application/x-yaml",
             "application/yaml", "text/x-rst", "text/x-tex"}
  }

  predicate IsStructuredMime(m: String)
  {
    m in {"application/json", "application/x-ndjson", "text/csv", "text/tab-separated-values",
          "text/yaml", "application/yaml", "application/xml", "text/xml"}
  }

  predicate IsDocumentMime(m: String)
  {
    m in {"application/pdf", "text/html", "text/markdown", "text/asciidoc", "application/rtf",
          "application/msword",
          "application/vnd.openxmlformats-officedocument.wordprocessingml.document",
          "application/vnd.openxmlformats-officedocument.presentationml.presentation",
          "application/vnd.openxmlformats-officedocument.spreadsheetml.sheet",
          "application/vnd.ms-excel", "application/vnd.ms-powerpoint",
          "application/vnd.oasis.opendocument.text",
          "application/vnd.oasis.opendocument.spreadsheet",
          "application/vnd.oasis.opendocument.presentation"}
  }

  predicate IsImageMime(m: String)
  {
    HasPrefix(m, "image/")
  }

  predicate IsArchiveMime(m: String)
  {
    m in {"application/zip", "application/x-tar", "application/gzip", "application/x-bzip2",
          "application/x-xz", "application/x-7z-compressed", "application/vnd.rar",
          "application/java-archive"}
  }

  predicate IsMediaMime(m: String)
  {
    HasPrefix(m, "audio/") || HasPrefix(m, "video/")
  }

  predicate IsBinaryMime(m: String)
  {
    m in {"application/octet-stream", "application/x-executable", "application/x-sharedlib",
          "application/x-archive", "application/x-object", "application/wasm"}
  }

  /** The kind of a lower-case MIME type: the first class that accepts it, in a fixed order. */
  function KindOfLower(m: String): (k: Kind)
    ensures k == Structured <==> IsStructuredMime(m)
    ensures k == Document <==> !IsStructuredMime(m) && IsDocumentMime(m)
    ensures k == TextKind ==> IsTextMime(m)
    ensures k == Unknown <==>
      (!IsStructuredMime(m) && !IsDocumentMime(m) && !IsImageMime(m)
       && !IsArchiveMime(m) && !IsMediaMime(m) && !IsBinaryMime(m) && !IsTextMime(m))
  {
    if IsStructuredMime(m) then Structured
    else if IsDocumentMime(m) then Document
    else if IsImageMime(m) then Image
    else if IsArchiveMime(m) then Archive
    else if IsMediaMime(m) then Media
    else if IsBinaryMime(m) then Binary
    else if IsTextMime(m) then TextKind
    else Unknown
  }

  /** `kindFromMIME`: the MIME type is lower-cased, then classified. */
  function KindFromMime(mime: String): Kind
  {
    KindOfLower(ToLower(mime))
  }

  /** Lower-casing is idempotent, so the kind ignores the case of the MIME type. */
  lemma KindIgnoresCase(mime: String)
    ensures KindFromMime(ToLower(mime)) == KindFromMime(mime)
  {
    hide KindOfLower, ToLower;
    LowerTwice(mime);
  }

  /** A MIME type in several classes takes the earliest: NDJSON and YAML are structured, not text. */
  lemma StructuredBeforeText()
    ensures KindFromMime("application/x-ndjson") == Structured
    ensures KindFromMime("application/yaml") == Structured
    ensures KindFromMime("text/markdown") == Document
  {
    hide KindOfLower, ToLower;
    LowerOfLower("application/x-ndjson");
    LowerOfLower("application/yaml");
    LowerOfLower("text/markdown");
    assert IsStructuredMime("application/x-ndjson") && IsStructuredMime("application/yaml");
    assert !IsStructuredMime("text/markdown") && IsDocumentMime("text/markdown");
  }

  /** Text without upper-case letters is its own lower-case form. */
  lemma LowerOfLower(s: String)
    requires forall i :: 0 <= i < |s| ==> !('A' <= s[i] <= 'Z')
    ensures ToLower(s) == s
  {
  }

  /** The extension table used when the system MIME database does not know an extension. */
  const ExtensionMime: map<String, String> := map[
    ".go" := "text/x-go", ".py" := "text/x-python", ".js" := "text/javascript",
    ".ts" := "text/typescript", ".tsx" := "text/typescript-jsx", ".jsx" := "text/javascript-jsx",
    ".rs" := "text/x-rust", ".rb" := "text/x-ruby", ".java" := "text/x-java",
    ".kt" := "text/x-kotlin", ".swift" := "text/x-swift", ".c" := "text/x-c",
    ".cpp" := "text/x-c++", ".h" := "text/x-c-header", ".hpp" := "text/x-c++-header",
    ".cs" := "text/x-csharp", ".php" := "text/x-php", ".scala" := "text/x-scala",
    ".clj" := "text/x-clojure", ".ex" := "text/x-elixir", ".exs" := "text/x-elixir",
    ".erl" := "text/x-erlang", ".hs" := "text/x-haskell", ".lua" := "text/x-lua",
    ".pl" := "text/x-perl", ".r" := "text/x-r", ".sql" := "text/x-sql",
    ".sh" := "text/x-shellscript", ".bash" := "text/x-shellscript", ".zsh" := "text/x-shellscript",
    ".fish" := "text/x-shellscript", ".ps1" := "text/x-powershell", ".vim" := "text/x-vim",
    ".zig" := "text/x-zig",
    ".md" := "text/markdown", ".markdown" := "text/markdown", ".rst" := "text/x-rst",
    ".adoc" := "text/asciidoc", ".tex" := "text/x-tex", ".yaml" := "text/yaml",
    ".yml" := "text/yaml", ".toml" := "text/toml", ".ini" := "text/ini", ".cfg" := "text/ini",
    ".conf" := "text/plain", ".env" := "text/plain", ".properties" := "text/x-java-properties",
    ".json" := "application/json", ".jsonl" := "application/x-ndjson",
    ".ndjson" := "application/x-ndjson", ".csv" := "text/csv",
    ".tsv" := "text/tab-separated-values", ".xml" := "application/xml",
    ".pdf" := "application/pdf",
    ".docx" := "application/vnd.openxmlformats-officedocument.wordprocessingml.document",
    ".xlsx" := "application/vnd.openxmlformats-officedocument.spreadsheetml.sheet",
    ".pptx" := "application/vnd.openxmlformats-officedocument.presentationml.presentation",
    ".doc" := "application/msword", ".xls" := "application/vnd.ms-excel",
    ".ppt" := "application/vnd.ms-powerpoint", ".odt" := "application/vnd.oasis.opendocument.text",
    ".ods" := "application/vnd.oasis.opendocument.spreadsheet",
    ".odp" := "application/vnd.oasis.opendocument.presentation", ".rtf" := "application/rtf",
    ".jpg" := "image/jpeg", ".jpeg" := "image/jpeg", ".png" := "image/png", ".gif" := "image/gif",
    ".webp" := "image/webp", ".svg" := "image/svg+xml", ".ico" := "image/x-icon",
    ".bmp" := "image/bmp", ".tiff" := "image/tiff", ".tif" := "image/tiff",
    ".heic" := "image/heic", ".heif" := "image/heif", ".avif" := "image/avif",
    ".mp3" := "audio/mpeg", ".wav" := "audio/wav", ".flac" := "audio/flac",
    ".aac" := "audio/aac", ".ogg" := "audio/ogg",
    ".mp4" := "video/mp4", ".mov" := "video/quicktime", ".avi" := "video/x-msvideo",
    ".mkv" := "video/x-matroska", ".webm" := "video/webm",
    ".zip" := "application/zip", ".tar" := "application/x-tar", ".gz" := "application/gzip",
    ".tgz" := "application/gzip", ".bz2" := "application/x-bzip2", ".xz" := "application/x-xz",
    ".7z" := "application/x-7z-compressed", ".rar" := "application/vnd.rar",
    ".jar" := "application/java-archive", ".war" := "application/java-archive",
    ".ear" := "application/java-archive",
    ".exe" := "application/x-executable", ".dll" := "application/x-executable",
    ".so" := "application/x-sharedlib", ".dylib" := "application/x-sharedlib",
    ".a" := "application/x-archive", ".o" := "application/x-object", ".wasm" := "application/wasm"
  ]

  /** `extensionToMIME`: the table entry, or "" for an extension it does not list. */
  function ExtensionToMime(ext: String): String
  {
    if ext in ExtensionMime then ExtensionMime[ext] else ""
  }

  function KindFromExtension(ext: String): (k: Kind)
    ensures ext !in ExtensionMime ==> k == Unknown
  {
    if ext == [] then Unknown
    else
      var m := ExtensionToMime(ext);
      if m == [] then Unknown else KindFromMime(m)
  }

  // UTF-8 validity as Go's `utf8.Valid` checks it: no overlong forms, no
  // surrogates, nothing above U+10FFFF.

  predicate InRange(b: Byte, lo: int, hi: int)
  {
    lo <= b <= hi
  }

  predicate Cont(b: Byte)
  {
    InRange(b, 0x80, 0xBF)
  }

  /** The length of the well-formed encoded character at the front of `s`, or 0. */
  function RuneLength(s: seq<Byte>): (n: nat)
    ensures n <= |s| && (|s| > 0 && s[0] < 0x80 ==> n == 1)
  {
    if |s| == 0 then 0
    else
      var b := s[0];
      if b < 0x80 then 1
      else if InRange(b, 0xC2, 0xDF) then
        if |s| >= 2 && Cont(s[1]) then 2 else 0
      else if InRange(b, 0xE0, 0xEF) then
        var lo := if b == 0xE0 then 0xA0 else 0x80;
        var hi := if b == 0xED then 0x9F else 0xBF;
        if |s| >= 3 && InRange(s[1], lo, hi) && Cont(s[2]) then 3 else 0
      else if InRange(b, 0xF0, 0xF4) then
        var lo := if b == 0xF0 then 0x90 else 0x80;
        var hi := if b == 0xF4 then 0x8F else 0xBF;
        if |s| >= 4 && InRange(s[1], lo, hi) && Cont(s[2]) && Cont(s[3]) then 4 else 0
      else 0
  }

  predicate ValidUtf8(s: seq<Byte>)
    decreases |s|
  {
    |s| == 0 || (RuneLength(s) > 0 && ValidUtf8(s[RuneLength(s)..]))
  }

  /** `isLikelyText`: an empty sample, or one with no NUL byte that is valid UTF-8. */
  function IsLikelyText(peek: seq<Byte>): (r: bool)
    ensures |peek| == 0 ==> r
    ensures 0 in peek ==> !r
    ensures |peek| > 0 && !ValidUtf8(peek) ==> !r
  {
    if |peek| == 0 then true
    else if 0 in peek then false
    else ValidUtf8(peek)
  }

  /** Seven-bit text without NUL bytes is always likely text. */
  lemma {:induction false} AsciiIsLikelyText(peek: seq<Byte>)
    requires forall i :: 0 <= i < |peek| ==> 0 < peek[i] < 0x80
    ensures IsLikelyText(peek)
  {
    AsciiIsValid(peek);
  }

  lemma {:induction false} AsciiIsValid(s: seq<Byte>)
    requires forall i :: 0 <= i < |s| ==> s[i] < 0x80
    ensures ValidUtf8(s)
    decreases |s|
  {
    if |s| > 0 {
      assert RuneLength(s) == 1;
      AsciiIsValid(s[1..]);
    }
  }

  /** A truncated two-byte sequence, a NUL and an encoded surrogate are not text. */
  lemma NotTextSamples()
    ensures !IsLikelyText([0x68, 0xC3])
    ensures !IsLikelyText([0x68, 0x00, 0x69])
    ensures !IsLikelyText([0xED, 0xA0, 0x80])
    ensures IsLikelyText([0xC3, 0xA9])
  {
    var a: seq<Byte> := [0x68, 0xC3];
    assert RuneLength(a) == 1 && a[1..] == [0xC3];
    var b: seq<Byte> := [0x68, 0x00, 0x69];
    assert b[1] == 0;
    var c: seq<Byte> := [0xC3, 0xA9];
    assert RuneLength(c) == 2 && c[2..] == [];
  }

  /**
   * `detectMIME`: the extension's type (from the system database, else the
   * table) wins unless the content sniffer found something more specific than
   * octet-stream or plain text. The system database answer and the sniffed
   * type are inputs, both already cut at any `;` parameter.
   */
  function DetectMime(ext: String, systemMime: String, sniffed: String): (m: String)
    ensures m == [] ==> sniffed == [] && systemMime == [] && ExtensionToMime(ext) == []
    ensures var extMime := if systemMime != [] then systemMime else ExtensionToMime(ext);
      (extMime != [] && sniffed in {"", "application/octet-stream", "text/plain"} ==> m == extMime)
      && (sniffed !in {"", "application/octet-stream", "text/plain"} ==> m == sniffed)
  {
    var extMime := if systemMime == [] then ExtensionToMime(ext) else systemMime;
    if extMime != [] && sniffed in {"", "application/octet-stream", "text/plain"} then extMime
    else if sniffed != [] then sniffed
    else extMime
  }

  /**
   * `Probe`: the kind from the MIME type, then the extension, then the
   * sample; text-like kinds whose sample is not text become binary. Since an
   * empty sample counts as text, the kind is never unknown. The language
   * detector is not part of this model.
   */
  function Probe(ext: String, systemMime: String, sniffed: String, peek: seq<Byte>): (r: (Kind, String))
    ensures r.1 != []
    ensures r.0 in {TextKind, Structured, Document} ==> IsLikelyText(peek)
    ensures r.0 != Unknown
  {
    var mime := DetectMime(ext, systemMime, sniffed);
    var k0 := KindFromMime(mime);
    var k1 := if k0 == Unknown then KindFromExtension(ext) else k0;
    var k2 := if k1 in {TextKind, Structured, Document} && !IsLikelyText(peek) then Binary else k1;
    var k3 := if k2 == Unknown then (if IsLikelyText(peek) then TextKind else if |peek| > 0 then Binary else Unknown) else k2;
    (k3, if mime == [] then "application/octet-stream" else mime)
  }
}
