/** One glossary entry; its identity (`id`) is its key. */
module GlossaryTerms {

  datatype GlossaryTerm = GlossaryTerm(key: string, shortLabel: string, title: string, description: string)
  {
    function Id(): string {
      key
    }
  }
}
