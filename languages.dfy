/** The three languages the language selector offers (components/Header.tsx:12). */
module Languages {
  datatype Language = English | Korean | Khmer {
    /** The string the user interface stores and sends for this language. */
    function Name(): (r: string)
      ensures |r| > 0
    {
      match this
      case English => "English"
      case Korean => "Korean"
      case Khmer => "Khmer"
    }

    /** Korean and Khmer have a polite/casual register the translator is told about. */
    predicate SupportsNuance()
      ensures SupportsNuance() <==> this != English
    {
      this == Korean || this == Khmer
    }
  }
}
