/** The self-scan statements (src/data/selfScan.ts): seven themes the user
    rates from 1 to 3. Only id and theme are kept; the statement text and
    hint are display only. */
module SelfScanCatalog {
  import QuestionCatalog

  datatype SelfScanItem = SelfScanItem(id: nat, theme: string)

  const Items: seq<SelfScanItem> := [
    SelfScanItem(1, "Hoe werkt generatieve AI?"),
    SelfScanItem(2, "Prompting"),
    SelfScanItem(3, "Custom chatbots"),
    SelfScanItem(4, "Vibecoden"),
    SelfScanItem(5, "Privacy & bias"),
    SelfScanItem(6, "AI-ready toetsing"),
    SelfScanItem(7, "Beperkingen & toekomst")
  ]

  predicate DistinctItemIds(items: seq<SelfScanItem>) {
    forall i, j :: 0 <= i < j < |items| ==> items[i].id != items[j].id
  }

  /** Seven items, the item at index i has id i + 1, so ids are distinct;
      and there are as many items as assessment questions, so one index
      bound serves both flows. */
  lemma ItemsShape()
    ensures |Items| == 7
    ensures forall i :: 0 <= i < |Items| ==> Items[i].id == i + 1
    ensures DistinctItemIds(Items)
    ensures |Items| == |QuestionCatalog.Catalog|
  {
    assert forall i :: 0 <= i < |Items| ==> Items[i].id == i + 1;
  }
}
