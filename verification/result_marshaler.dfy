/**
 * The result marshaler: re-shapes the engine's classification result into
 * the host's `Classifications` and `Category` records
 * (`ConvertToClassificationResults`). It filters, sorts and truncates
 * nothing; its one rule is the choice of label.
 */
module ResultMarshaler {
  import opened Wrappers
  import opened CStrings
  import Engine
  import Host

  /**
   * The label of a category: its display name when that is non-empty,
   * its class name otherwise. An unset display name counts as empty.
   */
  function Label(category: Engine.Class): (chosen: string)
    ensures category.DisplayName() != "" ==> chosen == category.DisplayName()
    ensures chosen in {category.className, category.DisplayName()}
    ensures chosen == "" <==> category.className == "" && category.DisplayName() == ""
  {
    if category.DisplayName() == "" then category.className else category.DisplayName()
  }

  /**
   * The host category for one engine class: the label as the host reads
   * it back from a C string, and the score unchanged.
   */
  predicate CategoryMarshalsTo(category: Engine.Class, jcategory: Host.Category) {
    jcategory == Host.Category(CString(Label(category)), category.score)
  }

  /** One head: same index, same number of categories, each in the same place. */
  predicate GroupMarshalsTo(classifications: Engine.Classifications, jclassifications: Host.Classifications) {
    && jclassifications.headIndex == classifications.headIndex
    && |jclassifications.categories| == |classifications.classes|
    && forall j :: 0 <= j < |classifications.classes| ==>
         CategoryMarshalsTo(classifications.classes[j], jclassifications.categories[j])
  }

  /** The whole result: one host record per head, in the engine's order. */
  predicate MarshalsTo(results: Engine.ClassificationResult, classificationsList: seq<Host.Classifications>) {
    && |classificationsList| == |results.classifications|
    && forall i :: 0 <= i < |classificationsList| ==>
         GroupMarshalsTo(results.classifications[i], classificationsList[i])
  }

  /**
   * Builds the host list head by head and, inside each head, category by
   * category, appending as the native code does.
   */
  method ConvertToClassificationResults(results: Engine.ClassificationResult)
    returns (classificationsList: seq<Host.Classifications>)
    ensures MarshalsTo(results, classificationsList)
  {
    classificationsList := [];
    for i := 0 to |results.classifications|
      invariant |classificationsList| == i
      invariant forall k :: 0 <= k < i ==>
        GroupMarshalsTo(results.classifications[k], classificationsList[k])
    {
      var classifications := results.classifications[i];
      var categoryList: seq<Host.Category> := [];
      for j := 0 to |classifications.classes|
        invariant |categoryList| == j
        invariant forall k :: 0 <= k < j ==>
          CategoryMarshalsTo(classifications.classes[k], categoryList[k])
      {
        var category := classifications.classes[j];
        var chosen := Label(category);
        var className := CString(chosen);
        var jcategory := Host.Category(className, category.score);
        categoryList := categoryList + [jcategory];
      }
      var jclassifications := Host.Classifications(categoryList, classifications.headIndex);
      classificationsList := classificationsList + [jclassifications];
    }
  }

  /**
   * `MarshalsTo` leaves no freedom: a result has exactly one host
   * rendering, so nothing can be added, dropped or reordered.
   */
  lemma {:induction false} MarshalsToUnique(results: Engine.ClassificationResult,
                                            a: seq<Host.Classifications>, b: seq<Host.Classifications>)
    requires MarshalsTo(results, a) && MarshalsTo(results, b)
    ensures a == b
  {
    forall i | 0 <= i < |a|
      ensures a[i] == b[i]
    {
      var g := results.classifications[i];
      assert GroupMarshalsTo(g, a[i]) && GroupMarshalsTo(g, b[i]);
      forall j | 0 <= j < |g.classes|
        ensures a[i].categories[j] == b[i].categories[j]
      {
        assert CategoryMarshalsTo(g.classes[j], a[i].categories[j]);
        assert CategoryMarshalsTo(g.classes[j], b[i].categories[j]);
      }
      assert a[i].categories == b[i].categories;
    }
  }

  /**
   * When no chosen name contains a NUL character, each host label is
   * exactly the chosen name, and each score is the engine's.
   */
  lemma LabelsSurviveWithoutNul(results: Engine.ClassificationResult,
                                classificationsList: seq<Host.Classifications>, i: int, j: int)
    requires MarshalsTo(results, classificationsList)
    requires 0 <= i < |results.classifications|
    requires 0 <= j < |results.classifications[i].classes|
    requires '\0' !in Label(results.classifications[i].classes[j])
    ensures classificationsList[i].categories[j].labelText == Label(results.classifications[i].classes[j])
    ensures classificationsList[i].categories[j].score == results.classifications[i].classes[j].score
  {
  }

  /** The two worked examples of the label rule: an empty and a present display name. */
  lemma LabelExamples()
    ensures Label(Engine.Class("cat", Some(""), 0.5)) == "cat"
    ensures Label(Engine.Class("cat", None, 0.5)) == "cat"
    ensures Label(Engine.Class("cat", Some("Felis"), 0.5)) == "Felis"
  {
  }
}
