/** `TalkerHandlerBase` (talker/src/talker_handler.rs): the catalogue entry
    of a talker kind. The accessors of the record are its fields; `label`
    is a Dafny keyword, so the label field is `labelText`. */
module TalkerHandlers {

  datatype TalkerHandlerBase = TalkerHandlerBase(categories: seq<string>, model: string, labelText: string)

  /** `with_multi_categories`: the three arguments, kept as they are. */
  function WithMultiCategories(categories: seq<string>, model: string, labelText: string): (r: TalkerHandlerBase)
    ensures r.categories == categories && r.model == model && r.labelText == labelText
  {
    TalkerHandlerBase(categories, model, labelText)
  }

  /** `builtin`: a built-in talker is in its one category, and its label is
      marked with a leading `G `. */
  function Builtin(category: string, model: string, labelText: string): (r: TalkerHandlerBase)
    ensures r.categories == [category] && r.model == model
    ensures |r.labelText| == |labelText| + 2 && r.labelText[..2] == "G " && r.labelText[2..] == labelText
  {
    WithMultiCategories([category], model, "G " + labelText)
  }
}
