/** The languages the metrics engine knows, as declared by the `Language` enumeration. */
module Types {

  datatype Language =
    | Java | Kotlin | TypeScript | CSS | HTML | SCSS | JSON | YAML | XML | Markdown | Text | Unknown

  /** The string value each enumeration member stands for. */
  function LanguageName(l: Language): string
  {
    match l
    case Java => "java"
    case Kotlin => "kotlin"
    case TypeScript => "typescript"
    case CSS => "css"
    case HTML => "html"
    case SCSS => "scss"
    case JSON => "json"
    case YAML => "yaml"
    case XML => "xml"
    case Markdown => "markdown"
    case Text => "text"
    case Unknown => "unknown"
  }

  /** Every member, in declaration order. */
  const AllLanguages: seq<Language> :=
    [Java, Kotlin, TypeScript, CSS, HTML, SCSS, JSON, YAML, XML, Markdown, Text, Unknown]

  /** Distinct members have distinct string values, and the list holds each member once. */
  lemma LanguageNamesDistinct(a: Language, b: Language)
    ensures LanguageName(a) == LanguageName(b) <==> a == b
    ensures a in AllLanguages
    ensures forall i, j :: 0 <= i < j < |AllLanguages| ==> AllLanguages[i] != AllLanguages[j]
  {
  }
}
