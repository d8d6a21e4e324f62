/** How values are written as JSON, and which of them Python holds true. */
module Encodings {
  import opened Wrappers
  import opened Domain
  import opened StageBoard
  import opened Transactions

  predicate IsTexts(j: Json, texts: seq<string>) {
    j.JList? && |j.items| == |texts| && forall i :: 0 <= i < |texts| ==> j.items[i] == JText(texts[i])
  }

  predicate IsInts(j: Json, ints: seq<int>) {
    j.JList? && |j.items| == |ints| && forall i :: 0 <= i < |ints| ==> j.items[i] == JInt(ints[i])
  }

  predicate IsReal(j: Json, x: Option<real>) {
    if x.Some? then j == JReal(x.value) else j == JNull
  }

  predicate IsBand(j: Json, b: Band) {
    && (b == Suitable ==> j == JText("suitable"))
    && (b == Conditional ==> j == JText("conditional"))
    && (b == NotSuitable ==> j == JText("not_suitable"))
  }

  predicate IsIds(j: Json, ids: seq<Id>) {
    j.JList? && |j.items| == |ids| && forall i :: 0 <= i < |ids| ==> j.items[i] == JId(ids[i])
  }

  predicate IsText(j: Json, t: Option<string>) {
    if t.Some? then j == JText(t.value) else j == JNull
  }

  predicate IsPriority(j: Json, p: Priority) {
    && (p == Low ==> j == JText("low")) && (p == Medium ==> j == JText("medium"))
    && (p == High ==> j == JText("high")) && (p == Urgent ==> j == JText("urgent"))
  }

  lemma ListsAre(texts: seq<string>, ids: seq<Id>)
    ensures IsTexts(TextList(texts), texts) && IsIds(IdList(ids), ids)
  {
  }

  lemma ScalarsAre(t: Option<string>, x: Option<real>, p: Priority, b: Band)
    ensures IsText(TextOrNull(t), t) && IsReal(RealOrNull(x), x) && IsPriority(PriorityJson(p), p) && IsBand(BandJson(b), b)
  {
  }

  /** False are null, false, zero and whatever is empty; everything else is true. */
  lemma TruthyIs(j: Json)
    ensures !Truthy(j) <==> || j == JNull || j == JBool(false) || j == JInt(0) || j == JReal(0.0) || j == JText("")
                            || j == JList([]) || j == JObject(map[])
  {
  }
}
