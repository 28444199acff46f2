/** Normalisation of the interface language code (`pt_to_ptbr`). */
module Language {

  /** Portuguese is always shown as Brazilian Portuguese: "pt" becomes
      "pt-br", and every other code (including "pt-br" itself) is kept. */
  function PtToPtBr(lang: string): (r: string)
    ensures lang == "pt" ==> r == "pt-br"
    ensures lang != "pt" ==> r == lang
  {
    if lang == "pt" || lang == "pt-br" then "pt-br" else lang
  }

  /** Normalising twice is the same as normalising once, and a normalised
      code is never the bare "pt". */
  lemma PtToPtBrIdempotent(lang: string)
    ensures PtToPtBr(PtToPtBr(lang)) == PtToPtBr(lang)
    ensures PtToPtBr(lang) != "pt"
  {
  }

  /** The only codes normalised to "pt-br" are "pt" and "pt-br"; only "en"
      is normalised to "en". */
  lemma PtToPtBrPreimages(lang: string)
    ensures PtToPtBr(lang) == "pt-br" <==> (lang == "pt" || lang == "pt-br")
    ensures PtToPtBr(lang) == "en" <==> lang == "en"
  {
  }
}
