/** `extract_hypothesis` (`backend/steps/utils.py`): the hypothesis the operator
    picked, looked up by id in the stored response of the hypothesis step. The
    response is a dictionary or `None`; its `"hypotheses"` entry is iterated as
    Python iterates a value, and every element is asked for `.get("id")`. */
module StepUtils {
  import opened Optional
  import opened Json

  /** What the lookup produces: the matching hypothesis object itself, `None`, or
      an exception that escapes it (an element without `.get`, a value that cannot
      be iterated). */
  datatype Extracted = Found(hypothesis: Fields) | NotFound | Raised

  /** `h.get("id") == hypothesis_id` for an element that is a dictionary. */
  predicate Matches(h: Fields, id: string)
  {
    Lookup(h, "id") == Str(id)
  }

  /** The `for` loop over a list: the first element whose id matches, in list
      order; an element that is not a dictionary raises when it is reached. */
  function Search(items: seq<Value>, id: string): Extracted
  {
    if items == [] then NotFound
    else if !items[0].Obj? then Raised
    else if Matches(items[0].fields, id) then Found(items[0].fields)
    else Search(items[1..], id)
  }

  /** Every element before position `i` is a dictionary whose id does not match. */
  predicate PassedOver(items: seq<Value>, id: string, i: nat)
  {
    i <= |items| && forall j :: 0 <= j < i ==> items[j].Obj? && !Matches(items[j].fields, id)
  }

  /** The element at `i` is the first match. */
  predicate FirstMatchAt(items: seq<Value>, id: string, i: nat)
  {
    PassedOver(items, id, i) && i < |items| && items[i].Obj? && Matches(items[i].fields, id)
  }

  /** The element at `i` is the first one that is not a dictionary, and no match
      comes before it. */
  predicate FirstBadAt(items: seq<Value>, id: string, i: nat)
  {
    PassedOver(items, id, i) && i < |items| && !items[i].Obj?
  }

  /** The search finds the first matching element, unchanged. */
  lemma {:induction false} SearchFindsFirst(items: seq<Value>, id: string, i: nat)
    requires FirstMatchAt(items, id, i)
    ensures Search(items, id) == Found(items[i].fields)
  {
    if i > 0 {
      assert PassedOver(items[1..], id, i - 1) by {
        forall j | 0 <= j < i - 1 ensures items[1..][j].Obj? && !Matches(items[1..][j].fields, id) {
          assert items[1..][j] == items[j + 1];
        }
      }
      SearchFindsFirst(items[1..], id, i - 1);
    }
  }

  /** The search raises at the first element that is not a dictionary, unless a
      match comes first. */
  lemma {:induction false} SearchRaisesAtBad(items: seq<Value>, id: string, i: nat)
    requires FirstBadAt(items, id, i)
    ensures Search(items, id) == Raised
  {
    if i > 0 {
      assert PassedOver(items[1..], id, i - 1) by {
        forall j | 0 <= j < i - 1 ensures items[1..][j].Obj? && !Matches(items[1..][j].fields, id) {
          assert items[1..][j] == items[j + 1];
        }
      }
      SearchRaisesAtBad(items[1..], id, i - 1);
    }
  }

  /** Conversely, each outcome has its witness: a found hypothesis is the first
      match in the list, and nothing is found exactly when every element is a
      dictionary with another id. */
  lemma {:induction false} SearchOutcomes(items: seq<Value>, id: string)
    ensures Search(items, id).Found? ==>
              exists i: nat :: FirstMatchAt(items, id, i) && Search(items, id).hypothesis == items[i].fields
    ensures Search(items, id) == Raised ==> exists i: nat :: FirstBadAt(items, id, i)
    ensures Search(items, id) == NotFound <==> PassedOver(items, id, |items|)
  {
    if items != [] && items[0].Obj? && !Matches(items[0].fields, id) {
      var rest := items[1..];
      SearchOutcomes(rest, id);
      if Search(rest, id).Found? {
        var i: nat :| FirstMatchAt(rest, id, i) && Search(rest, id).hypothesis == rest[i].fields;
        assert items[i + 1] == rest[i];
        assert FirstMatchAt(items, id, i + 1) by {
          forall j | 0 <= j < i + 1 ensures items[j].Obj? && !Matches(items[j].fields, id) {
            if j > 0 { assert items[j] == rest[j - 1]; }
          }
        }
      }
      if Search(rest, id) == Raised {
        var i: nat :| FirstBadAt(rest, id, i);
        assert items[i + 1] == rest[i];
        assert FirstBadAt(items, id, i + 1) by {
          forall j | 0 <= j < i + 1 ensures items[j].Obj? && !Matches(items[j].fields, id) {
            if j > 0 { assert items[j] == rest[j - 1]; }
          }
        }
      }
      if PassedOver(items, id, |items|) {
        assert PassedOver(rest, id, |rest|) by {
          forall j | 0 <= j < |rest| ensures rest[j].Obj? && !Matches(rest[j].fields, id) {
            assert rest[j] == items[j + 1];
          }
        }
      }
      if PassedOver(rest, id, |rest|) {
        forall j | 0 <= j < |items| ensures items[j].Obj? && !Matches(items[j].fields, id) {
          if j > 0 { assert items[j] == rest[j - 1]; }
        }
      }
    } else if items != [] && items[0].Obj? {
      assert FirstMatchAt(items, id, 0);
    } else if items != [] {
      assert FirstBadAt(items, id, 0);
    }
  }

  /** Python's iteration of the `"hypotheses"` value: a list yields its elements;
      an empty string or an empty dictionary yields nothing; a non-empty string
      yields characters and a non-empty dictionary yields its keys, which have no
      `.get`; `None`, booleans and numbers cannot be iterated. */
  function SearchValue(v: Value, id: string): (r: Extracted)
    ensures v.Arr? ==> r == Search(v.items, id)
    ensures !v.Arr? ==> (r == NotFound <==> v == Str("") || v == Obj([]))
    ensures !v.Arr? ==> r != NotFound ==> r == Raised
  {
    match v
    case Arr(items) => Search(items, id)
    case Str(s) => if s == "" then NotFound else Raised
    case Obj(fields) => if fields == [] then NotFound else Raised
    case _ => Raised
  }

  /** `extract_hypothesis(step2_resp, hypothesis_id)`: `None` for a missing or empty
      response and for one without `"hypotheses"`; otherwise the search over that
      entry. The response is only read. */
  function ExtractHypothesis(resp: Option<Fields>, id: string): (r: Extracted)
    ensures resp == None || resp == Some([]) ==> r == NotFound
    ensures resp.Some? && !HasField(resp.value, "hypotheses") ==> r == NotFound
    ensures resp.Some? && resp.value != [] && HasField(resp.value, "hypotheses") ==>
              r == SearchValue(Lookup(resp.value, "hypotheses"), id)
  {
    match resp
    case None => NotFound
    case Some(d) =>
      if d == [] || !HasField(d, "hypotheses") then NotFound
      else SearchValue(Lookup(d, "hypotheses"), id)
  }

  /** A found hypothesis is an element of the response's hypothesis list, returned
      unchanged, whose id is the requested one, and no earlier element has that id. */
  lemma FoundIsFirstListElement(resp: Option<Fields>, id: string)
    requires ExtractHypothesis(resp, id).Found?
    ensures resp.Some? && Lookup(resp.value, "hypotheses").Arr?
    ensures var items := Lookup(resp.value, "hypotheses").items;
            exists i: nat :: FirstMatchAt(items, id, i)
                        && Obj(ExtractHypothesis(resp, id).hypothesis) == items[i]
                        && Matches(ExtractHypothesis(resp, id).hypothesis, id)
  {
    SearchOutcomes(Lookup(resp.value, "hypotheses").items, id);
  }

  /** A list whose first match is at `i` gives that element back. */
  lemma ExtractFindsFirst(d: Fields, items: seq<Value>, id: string, i: nat)
    requires d != [] && HasField(d, "hypotheses") && Lookup(d, "hypotheses") == Arr(items)
    requires FirstMatchAt(items, id, i)
    ensures ExtractHypothesis(Some(d), id) == Found(items[i].fields)
  {
    SearchFindsFirst(items, id, i);
  }

  /** A list of dictionaries none of which has the requested id gives `None`. */
  lemma ExtractNoMatch(d: Fields, items: seq<Value>, id: string)
    requires d != [] && HasField(d, "hypotheses") && Lookup(d, "hypotheses") == Arr(items)
    requires PassedOver(items, id, |items|)
    ensures ExtractHypothesis(Some(d), id) == NotFound
  {
    SearchOutcomes(items, id);
  }

  /** Scenario: the operator picks "b" from the three hypotheses "a", "b", "c". */
  lemma PickSecond()
    ensures var ha := [("id", Str("a")), ("title", Str("循环边界"))];
            var hb := [("id", Str("b")), ("title", Str("空列表"))];
            var hc := [("id", Str("c")), ("title", Str("并发"))];
            ExtractHypothesis(Some([("hypotheses", Arr([Obj(ha), Obj(hb), Obj(hc)]))]), "b") == Found(hb)
  {
    var d := [("hypotheses", Arr([Obj([("id", Str("a")), ("title", Str("循环边界"))]),
                                  Obj([("id", Str("b")), ("title", Str("空列表"))]),
                                  Obj([("id", Str("c")), ("title", Str("并发"))])]))];
    assert HasField(d, "hypotheses") by { assert d[0].0 == "hypotheses"; }
  }
}
