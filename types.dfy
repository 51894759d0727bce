/** The request and response records of the guardrail API and the helpers defined on a response. */
module Types {
  import opened Wrappers

  /** One element of a multimodal content list. */
  datatype ContentPart = TextPart(text: string) | ImageUrlPart(url: string)

  /** Message.Content is a string for text messages and a list of parts for image checks. */
  datatype Content = Text(text: string) | Parts(parts: seq<ContentPart>)

  datatype Message = Message(role: string, content: Content)

  /** NewMessage stores the role and the content as given. */
  function NewMessage(role: string, content: string): (m: Message)
    ensures m.role == role && m.content.Text? && m.content.text == content
  {
    Message(role, Text(content))
  }

  /** ComplianceResult, SecurityResult and DataSecurityResult share this shape. */
  datatype RiskResult = RiskResult(riskLevel: string, categories: seq<string>)

  /** GuardrailResult; a nil sub-result is None. */
  datatype GuardrailResult = GuardrailResult(
    compliance: Option<RiskResult>,
    security: Option<RiskResult>,
    data: Option<RiskResult>)

  function CategoriesOf(r: Option<RiskResult>): seq<string> {
    if r.Some? then r.value.categories else []
  }

  /** GuardrailResponse; the score is kept as an uninterpreted number. */
  datatype GuardrailResponse = GuardrailResponse(
    id: string,
    result: Option<GuardrailResult>,
    overallRiskLevel: string,
    suggestAction: string,
    suggestAnswer: Option<string>,
    score: Option<real>)
  {
    predicate IsSafe() {
      suggestAction == "pass"
    }

    predicate IsBlocked() {
      suggestAction == "reject"
    }

    predicate HasSubstitute() {
      suggestAction == "replace" || suggestAction == "reject"
    }

    /** Every category of the non-nil sub-results, compliance first, then security, then data. */
    function AllListed(): (s: seq<string>)
      ensures result.None? ==> s == []
    {
      if result.None? then []
      else CategoriesOf(result.value.compliance) + CategoriesOf(result.value.security) + CategoriesOf(result.value.data)
    }

    /**
     * GetAllCategories: walks the three lists in turn, remembering the
     * categories already seen in a set and appending each new one.
     */
    method GetAllCategories() returns (categories: seq<string>)
      ensures categories == Dedup(AllListed())
    {
      var categorySet: set<string> := {};
      categories := [];
      if result.Some? {
        var g := result.value;
        categories, categorySet := AddRisk(categories, categorySet, g.compliance, []);
        assert [] + CategoriesOf(g.compliance) == CategoriesOf(g.compliance);
        categories, categorySet := AddRisk(categories, categorySet, g.security, CategoriesOf(g.compliance));
        categories, categorySet :=
          AddRisk(categories, categorySet, g.data, CategoriesOf(g.compliance) + CategoriesOf(g.security));
      }
    }
  }

  /** The nil check around one of the three loops of GetAllCategories. */
  method AddRisk(categories: seq<string>, categorySet: set<string>, r: Option<RiskResult>, ghost done: seq<string>)
    returns (categories': seq<string>, categorySet': set<string>)
    requires categories == Dedup(done) && (forall x :: x in categorySet <==> x in categories)
    ensures categories' == Dedup(done + CategoriesOf(r)) && (forall x :: x in categorySet' <==> x in categories')
  {
    if r.Some? {
      categories', categorySet' := AddNew(categories, categorySet, r.value.categories, done);
    } else {
      assert done + CategoriesOf(r) == done;
      categories', categorySet' := categories, categorySet;
    }
  }

  /** One of the three loops of GetAllCategories: appends the categories of `list` not yet in the set. */
  method AddNew(categories: seq<string>, categorySet: set<string>, list: seq<string>, ghost done: seq<string>)
    returns (categories': seq<string>, categorySet': set<string>)
    requires categories == Dedup(done) && (forall x :: x in categorySet <==> x in categories)
    ensures categories' == Dedup(done + list) && (forall x :: x in categorySet' <==> x in categories')
  {
    categories', categorySet' := categories, categorySet;
    var i := 0;
    assert done + list[..0] == done;
    while i < |list|
      invariant 0 <= i <= |list|
      invariant categories' == Dedup(done + list[..i])
      invariant forall x :: x in categorySet' <==> x in categories'
    {
      var category := list[i];
      assert (done + list[..i + 1])[..|done + list[..i + 1]| - 1] == done + list[..i];
      DedupMembers(done + list[..i]);
      if category !in categorySet' {
        categorySet' := categorySet' + {category};
        categories' := categories' + [category];
      }
      i := i + 1;
    }
    assert list[..|list|] == list;
  }

  /** The first occurrences of the elements of s, in the order of s. */
  function Dedup<T(==)>(s: seq<T>): seq<T> {
    if s == [] then []
    else
      var d := Dedup(s[..|s| - 1]);
      if s[|s| - 1] in d then d else d + [s[|s| - 1]]
  }

  predicate Distinct<T(==)>(s: seq<T>) {
    forall i, j :: 0 <= i < j < |s| ==> s[i] != s[j]
  }

  /** The position of the first occurrence of x in s. */
  function FirstIndex<T(==)>(s: seq<T>, x: T): (k: nat)
    requires x in s
    ensures k < |s| && s[k] == x && x !in s[..k]
  {
    if s[0] == x then 0 else 1 + FirstIndex(s[1..], x)
  }

  /** Appending leaves the first occurrence of an element already present where it was. */
  lemma {:induction false} FirstIndexAppend<T>(s: seq<T>, y: T, x: T)
    requires x in s
    ensures FirstIndex(s + [y], x) == FirstIndex(s, x)
  {
    if s[0] != x {
      assert (s + [y])[1..] == s[1..] + [y];
      FirstIndexAppend(s[1..], y, x);
    }
  }

  /** Nothing is lost and nothing is invented: the merge holds exactly the elements of its input. */
  lemma {:induction false} DedupMembers<T>(s: seq<T>)
    ensures forall x :: x in Dedup(s) <==> x in s
  {
    if s != [] {
      var init := s[..|s| - 1];
      DedupMembers(init);
      assert s == init + [s[|s| - 1]];
    }
  }

  /** No category is listed twice. */
  lemma {:induction false} DedupDistinct<T>(s: seq<T>)
    ensures Distinct(Dedup(s))
  {
    if s != [] {
      DedupDistinct(s[..|s| - 1]);
    }
  }

  /** An element appended to a list it was not in first occurs at the end. */
  lemma FirstIndexNew<T>(s: seq<T>, y: T)
    requires y !in s
    ensures FirstIndex(s + [y], y) == |s|
  {
    var k := FirstIndex(s + [y], y);
    assert (s + [y])[..|s|] == s;
  }

  /** The merge lists elements in the order of their first occurrence in the input. */
  lemma {:induction false} DedupOrder<T>(s: seq<T>)
    ensures forall x :: x in Dedup(s) ==> x in s
    ensures forall i, j :: 0 <= i < j < |Dedup(s)| ==> FirstIndex(s, Dedup(s)[i]) < FirstIndex(s, Dedup(s)[j])
  {
    DedupMembers(s);
    if s != [] {
      var init, last := s[..|s| - 1], s[|s| - 1];
      assert s == init + [last];
      DedupMembers(init);
      DedupOrder(init);
      forall i, j | 0 <= i < j < |Dedup(s)|
        ensures FirstIndex(s, Dedup(s)[i]) < FirstIndex(s, Dedup(s)[j])
      {
        DedupOrderStep(init, last, i, j);
      }
    }
  }

  /** The inductive step of DedupOrder for one pair of positions. */
  lemma DedupOrderStep<T>(init: seq<T>, last: T, i: nat, j: nat)
    requires i < j < |Dedup(init + [last])|
    requires forall x :: x in Dedup(init) ==> x in init
    requires forall x :: x in init ==> x in Dedup(init)
    requires forall i', j' :: 0 <= i' < j' < |Dedup(init)| ==>
      FirstIndex(init, Dedup(init)[i']) < FirstIndex(init, Dedup(init)[j'])
    ensures Dedup(init + [last])[i] in init + [last] && Dedup(init + [last])[j] in init + [last]
    ensures FirstIndex(init + [last], Dedup(init + [last])[i]) < FirstIndex(init + [last], Dedup(init + [last])[j])
  {
    var s := init + [last];
    assert s[..|s| - 1] == init;
    var d, e := Dedup(init), Dedup(s);
    assert e == if last in d then d else d + [last];
    assert i < |d| && e[i] == d[i] && d[i] in d;
    FirstIndexAppend(init, last, d[i]);
    if j < |d| {
      assert e[j] == d[j] && d[j] in d;
      FirstIndexAppend(init, last, d[j]);
    } else {
      FirstIndexNew(init, last);
    }
  }

  /** The merge of the three lists leaves out nothing, repeats nothing and keeps first-occurrence order. */
  lemma AllCategoriesProperties(r: GuardrailResponse)
    ensures var c := Dedup(r.AllListed());
      && Distinct(c)
      && (forall x :: x in c <==> x in r.AllListed())
      && (forall i, j :: 0 <= i < j < |c| ==> FirstIndex(r.AllListed(), c[i]) < FirstIndex(r.AllListed(), c[j]))
      && (r.result.None? ==> c == [])
  {
    DedupDistinct(r.AllListed());
    DedupMembers(r.AllListed());
    DedupOrder(r.AllListed());
  }

  /** The suggested-action predicates: blocked content has a substitute, safe content neither. */
  lemma ActionPredicates(r: GuardrailResponse)
    ensures r.IsSafe() <==> r.suggestAction == "pass"
    ensures r.IsBlocked() <==> r.suggestAction == "reject"
    ensures r.HasSubstitute() <==> r.suggestAction in {"replace", "reject"}
    ensures r.IsBlocked() ==> r.HasSubstitute()
    ensures r.IsSafe() ==> !r.HasSubstitute() && !r.IsBlocked()
  {
  }
}
