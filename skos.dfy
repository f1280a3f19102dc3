/** The normalised SKOS model the provider hands out: a concept or a
    collection, each with an ordered list of labels. */
module Skos {
  import opened Thesaurus

  datatype LabelType = PrefLabel | AltLabel

  datatype Label = Label(labelType: LabelType, language: string, text: string)

  datatype Node =
    | Concept(id: Id, labels: seq<Label>, broader: seq<Id>, narrower: seq<Id>, related: seq<Id>)
    | Collection(id: Id, labels: seq<Label>, members: seq<Id>)
}
