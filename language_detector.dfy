/** `detectLanguage` of the metrics package: the file-name extension picks a `Language`. */
module LanguageDetector {
  import opened Base
  import opened Text
  import opened Types
  import JsObject

  /**
   * The extension table. `js` is listed, but its value `Language.JavaScript`
   * does not exist in the enumeration and so is `undefined`.
   */
  const Extensions: map<string, Option<Language>> := map[
    "java" := Some(Java),
    "js" := None,
    "ts" := Some(TypeScript),
    "kt" := Some(Kotlin),
    "kts" := Some(Kotlin)
  ]

  /** `fileName.split(".").pop().toLowerCase()`. */
  function Extension(fileName: string): string
  {
    ToLower(LastPiece(fileName, '.'))
  }

  /** The lookup on the table's own keys; an absent or `undefined` entry gives `Unknown`. */
  function DetectLanguage(fileName: string): (l: Language)
    ensures l == Java <==> Extension(fileName) == "java"
    ensures l == TypeScript <==> Extension(fileName) == "ts"
    ensures l == Kotlin <==> Extension(fileName) == "kt" || Extension(fileName) == "kts"
    ensures l == Unknown <==> Extension(fileName) !in {"java", "ts", "kt", "kts"}
  {
    var ext := Extension(fileName);
    if ext in Extensions && Extensions[ext].Some? then Extensions[ext].value else Unknown
  }

  /** Only the lower-cased text after the last dot is consulted. */
  lemma OnlyLastExtensionMatters(prefix: string, ext: string)
    requires '.' !in ext
    ensures Extension(prefix + "." + ext) == ToLower(ext)
  {
    LastPieceAfterSeparator(prefix, ext, '.');
  }

  /** Whatever precedes the last dot, the language is that of the bare extension. */
  lemma DetectByLastPiece(prefix: string, ext: string)
    requires '.' !in ext
    ensures DetectLanguage(prefix + "." + ext) == DetectLanguage(ext)
  {
    OnlyLastExtensionMatters(prefix, ext);
    SplitWithoutSeparator(ext, '.');
  }

  /** A name without a dot is looked up whole, so a file called `kt` is Kotlin. */
  lemma DotFreeNameIsItsOwnExtension(fileName: string)
    requires '.' !in fileName
    ensures Extension(fileName) == ToLower(fileName)
    ensures DetectLanguage("kt") == Kotlin
  {
    SplitWithoutSeparator(fileName, '.');
    SplitWithoutSeparator("kt", '.');
  }

  /** The extension is compared without regard to ASCII case. */
  lemma CaseInsensitive(fileName: string)
    ensures Extension(ToLower(fileName)) == Extension(fileName)
    ensures DetectLanguage(ToLower(fileName)) == DetectLanguage(fileName)
  {
    SplitToLower(fileName, '.');
    ToLowerIdempotent(LastPiece(fileName, '.'));
  }

  /** Upper-case `.JAVA` is Java, and `.js` is Unknown. */
  lemma Examples(stem: string)
    ensures DetectLanguage(stem + ".JAVA") == Java
    ensures DetectLanguage(stem + ".js") == Unknown
  {
    assert stem + ".JAVA" == stem + "." + "JAVA";
    OnlyLastExtensionMatters(stem, "JAVA");
    assert ToLower("JAVA") == "java";
    assert stem + ".js" == stem + "." + "js";
    OnlyLastExtensionMatters(stem, "js");
    ToLowerNoCapitals("js");
  }

  /** What the function returns as written: a `Language`, or an inherited `Object.prototype` member. */
  datatype Detected = Lang(language: Language) | PrototypeMember(key: string)

  /** `LanguageExtensions[extension || ""] || Language.Unknown`, with JavaScript's inherited keys. */
  function DetectLanguageAsWritten(fileName: string): Detected
  {
    match JsObject.Get(Extensions, Extension(fileName))
    case Own(v) => Lang(v.GetOr(Unknown))
    case Inherited(k) => PrototypeMember(k)
    case Missing => Lang(Unknown)
  }

  /**
   * An extension naming an inherited member that lower-casing leaves intact,
   * such as `Main.constructor`, yields that member instead of a language.
   */
  lemma InheritedExtensionEscapes(stem: string, ext: string)
    requires ext in JsObject.PrototypeKeys && ext !in Extensions
    requires '.' !in ext && ToLower(ext) == ext
    ensures DetectLanguageAsWritten(stem + "." + ext) == PrototypeMember(ext)
    ensures DetectLanguage(stem + "." + ext) == Unknown
  {
    OnlyLastExtensionMatters(stem, ext);
  }

  /** Outside the inherited keys the code as written and the own-key lookup agree. */
  lemma AsWrittenAgreesOutsidePrototypeKeys(fileName: string)
    requires Extension(fileName) !in JsObject.PrototypeKeys
    ensures DetectLanguageAsWritten(fileName) == Lang(DetectLanguage(fileName))
  {
  }
}

/** `detectLanguage` of the earlier single-package layout: it returns the language as a string. */
module LegacyLanguageDetector {
  import opened Text
  import LanguageDetector
  import JsObject

  const Extensions: map<string, string> := map[
    "java" := "java",
    "js" := "javascript",
    "ts" := "typescript"
  ]

  function DetectLanguage(fileName: string): (l: string)
    ensures l in {"java", "javascript", "typescript", "unknown"}
    ensures l == "java" <==> LanguageDetector.Extension(fileName) == "java"
    ensures l == "javascript" <==> LanguageDetector.Extension(fileName) == "js"
    ensures l == "typescript" <==> LanguageDetector.Extension(fileName) == "ts"
  {
    var ext := LanguageDetector.Extension(fileName);
    if ext in Extensions then Extensions[ext] else "unknown"
  }

  /** Kotlin is not in this table: `.kt` files are "unknown". */
  lemma KotlinIsUnknown(stem: string)
    ensures DetectLanguage(stem + ".kt") == "unknown"
  {
    assert stem + ".kt" == stem + "." + "kt";
    LanguageDetector.OnlyLastExtensionMatters(stem, "kt");
    ToLowerNoCapitals("kt");
  }

  /** What the function returns as written: a string, or an inherited `Object.prototype` member. */
  datatype Detected = Name(name: string) | PrototypeMember(key: string)

  function DetectLanguageAsWritten(fileName: string): Detected
  {
    match JsObject.Get(Extensions, LanguageDetector.Extension(fileName))
    case Own(v) => Name(v)
    case Inherited(k) => PrototypeMember(k)
    case Missing => Name("unknown")
  }

  /** An extension naming a lower-case inherited member, such as `a.__proto__`, yields that member. */
  lemma InheritedExtensionEscapes(stem: string, ext: string)
    requires ext in JsObject.PrototypeKeys && ext !in Extensions
    requires '.' !in ext && ToLower(ext) == ext
    ensures DetectLanguageAsWritten(stem + "." + ext) == PrototypeMember(ext)
    ensures DetectLanguage(stem + "." + ext) == "unknown"
  {
    LanguageDetector.OnlyLastExtensionMatters(stem, ext);
  }

  lemma AsWrittenAgreesOutsidePrototypeKeys(fileName: string)
    requires LanguageDetector.Extension(fileName) !in JsObject.PrototypeKeys
    ensures DetectLanguageAsWritten(fileName) == Name(DetectLanguage(fileName))
  {
  }
}
