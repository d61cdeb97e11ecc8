/** The lists made of the findings that a tool printed. */
module ToolLists {
  import opened Text
  import opened Findings
  import opened ModelReview

  lemma {:induction false} SanitizedLength(redact: Redactor, items: seq<Finding>)
    ensures |SanitizeAll(redact, items)| == |items|
  {
    if items != [] {
      SanitizedLength(redact, items[..|items| - 1]);
    }
  }

  /** The finding as it is listed: evidence redacted, an empty status filled in, every other field as it was. */
  predicate Cleaned(redact: Redactor, m: Finding, f: Finding) {
    f == Finding(m.severity, m.category, m.file, m.line, m.title, redact(m.evidence), m.recommendation, m.confidence,
                 m.source, m.ruleId, if m.status == "" then "finding" else m.status)
  }

  /** Item i is the first of its key. */
  predicate LeadsAt(items: seq<Finding>, i: int) {
    0 <= i < |items| && Key(items[i]) !in Keys(items[..i])
  }

  /** The list that is made of some items: their keys, each once, by the first item of the key, cleaned and sorted. */
  ghost predicate ListOf(redact: Redactor, items: seq<Finding>, list: seq<Finding>) {
    && Keys(list) == Keys(items) && Sorted(list)
    && (forall i, j :: 0 <= i < j < |list| ==> Key(list[i]) != Key(list[j]))
    && forall f :: f in list <==> exists i :: LeadsAt(items, i) && Cleaned(redact, items[i], f)
  }

  lemma {:induction false} SanitizedAt(redact: Redactor, items: seq<Finding>, i: nat)
    requires i < |items| == |SanitizeAll(redact, items)|
    ensures SanitizeAll(redact, items)[i] == Sanitize(redact, items[i])
    ensures SanitizeAll(redact, items)[..i] == SanitizeAll(redact, items[..i])
  {
    SanitizedLength(redact, items[..|items| - 1]);
    SanitizedLength(redact, items[..i]);
    var init := items[..|items| - 1];
    if i < |items| - 1 {
      SanitizedAt(redact, init, i);
      assert init[..i] == items[..i];
    }
  }

  lemma LeadsIs(redact: Redactor, items: seq<Finding>, f: Finding, i: int)
    ensures FirstAt(SanitizeAll(redact, items), f, i) <==> LeadsAt(items, i) && Cleaned(redact, items[i], f)
  {
    SanitizedLength(redact, items);
    if 0 <= i < |items| {
      SanitizedAt(redact, items, i);
      SanitizeKeys(redact, items[..i]);
      SanitizedKey(redact, items[i]);
    }
  }

  lemma ListOfIs(redact: Redactor, items: seq<Finding>)
    ensures ListOf(redact, items, Dedupe(SanitizeAll(redact, items)))
  {
    var s := SanitizeAll(redact, items);
    DedupeIs(s);
    SanitizeKeys(redact, items);
    forall f, i
      ensures FirstAt(s, f, i) <==> LeadsAt(items, i) && Cleaned(redact, items[i], f)
    {
      LeadsIs(redact, items, f, i);
    }
  }
}
