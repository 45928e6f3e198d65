/** Decoding of the W3C SPARQL Query Results XML Format, as SparqlApi.ask and
    SparqlApi.select read it.

    XML parsing itself is outside the model: a document is the tree
    ElementTree gives, seen through the results namespace
    (http://www.w3.org/2005/sparql-results#). Only the elements `find` and
    `findall` can reach are represented: the children of the root (`head`,
    `boolean`, `results`), the `variable` and `link` children of `head`, the
    `result` elements of `results`, their `binding` elements and each
    binding's children. An element with no text is given the empty text. */
module SparqlResults {
  import opened Core
  import opened Rdf

  /** A child of a `binding` element: a `uri`, `literal` or `bnode` element
      with its text, or an element of any other tag. */
  datatype ValueElem = Value(kind: TermKind, text: string) | OtherChild(tag: string)

  datatype BindingElem = BindingElem(name: string, children: seq<ValueElem>)

  datatype ResultElem = ResultElem(bindings: seq<BindingElem>)

  datatype HeadItem = Variable(name: string) | Link(href: string)

  datatype TopElem =
    | Head(items: seq<HeadItem>)
    | Boolean(text: string)
    | Results(results: seq<ResultElem>)

  datatype ResultsDoc = ResultsDoc(children: seq<TopElem>)

  /** What select returns on success: `(headers, results)`. */
  datatype Table = Table(headers: seq<string>, rows: seq<map<string, Term>>)

  predicate IsValueOf(k: TermKind, v: ValueElem)
  {
    v.Value? && v.kind == k
  }

  /** The binding has at least one child of kind `k`. */
  predicate HasValue(cs: seq<ValueElem>, k: TermKind)
  {
    exists i :: 0 <= i < |cs| && IsValueOf(k, cs[i])
  }

  /** `binding.find(...)` for the child of kind `k`, as a term. */
  function FindValue(cs: seq<ValueElem>, k: TermKind): Option<Term>
  {
    match Find(cs, v => IsValueOf(k, v))
    case None => None
    case Some(i) => Some(Term(k, cs[i].text))
  }

  /** The classification of one binding: the first `uri` child wins, then the
      first `literal` child, then the first `bnode` child; a binding with
      none of them is an error. */
  function BindingValue(b: BindingElem): (r: Result<Term>)
    ensures HasValue(b.children, UriKind) ==> r.Ok? && r.value.kind == UriKind
    ensures !HasValue(b.children, UriKind) && HasValue(b.children, LiteralKind)
            ==> r.Ok? && r.value.kind == LiteralKind
    ensures !HasValue(b.children, UriKind) && !HasValue(b.children, LiteralKind) && HasValue(b.children, BNodeKind)
            ==> r.Ok? && r.value.kind == BNodeKind
    ensures r.Err? <==>
            !HasValue(b.children, UriKind) && !HasValue(b.children, LiteralKind) && !HasValue(b.children, BNodeKind)
    ensures r.Err? ==> r.error == UnclassifiableBinding
    ensures r.Ok? ==> exists i :: 0 <= i < |b.children| && b.children[i] == Value(r.value.kind, r.value.text)
                                  && forall j :: 0 <= j < i ==> !IsValueOf(r.value.kind, b.children[j])
  {
    match FindValue(b.children, UriKind)
    case Some(t) => Ok(t)
    case None =>
      match FindValue(b.children, LiteralKind)
      case Some(t) => Ok(t)
      case None =>
        match FindValue(b.children, BNodeKind)
        case Some(t) => Ok(t)
        case None => Err(UnclassifiableBinding)
  }

  /** SparqlApi.ask after parsing: the first `boolean` child of the root is
      true exactly when its text is "true"; a document without one is an
      error. */
  function AskOf(doc: ResultsDoc): (r: Result<bool>)
    ensures r.Err? <==> forall i :: 0 <= i < |doc.children| ==> !doc.children[i].Boolean?
    ensures r.Err? ==> r.error == MissingElement("boolean")
    ensures r == Ok(true) <==>
            exists i :: 0 <= i < |doc.children| && doc.children[i] == Boolean("true")
                        && forall j :: 0 <= j < i ==> !doc.children[j].Boolean?
  {
    match Find(doc.children, (e: TopElem) => e.Boolean?)
    case None => Err(MissingElement("boolean"))
    case Some(i) => Ok(doc.children[i].text == "true")
  }

  /** `tree.find(head)`: the items of the first `head` child. */
  function HeadOf(doc: ResultsDoc): Option<seq<HeadItem>>
  {
    match Find(doc.children, (e: TopElem) => e.Head?)
    case None => None
    case Some(i) => Some(doc.children[i].items)
  }

  /** `tree.find(results)`: the rows of the first `results` child. */
  function ResultsOf(doc: ResultsDoc): Option<seq<ResultElem>>
  {
    match Find(doc.children, (e: TopElem) => e.Results?)
    case None => None
    case Some(i) => Some(doc.children[i].results)
  }

  /** The `name` attributes of the `variable` items of `head`, in document
      order. */
  function VariableNames(items: seq<HeadItem>): (names: seq<string>)
    ensures |names| <= |items|
    ensures forall n :: n in names <==> Variable(n) in items
  {
    if items == [] then []
    else (if items[0].Variable? then [items[0].name] else []) + VariableNames(items[1..])
  }

  /** Document order: the names of two consecutive stretches of `head` are the
      names of the first followed by those of the second. */
  lemma {:induction false} VariableNamesAppend(a: seq<HeadItem>, b: seq<HeadItem>)
    ensures VariableNames(a + b) == VariableNames(a) + VariableNames(b)
    decreases |a|
  {
    if a == [] {
      assert a + b == b;
    } else {
      assert (a + b)[1..] == a[1..] + b;
      VariableNamesAppend(a[1..], b);
    }
  }

  /** The dict `d` the loop over one result's bindings ends with, starting
      from `d`: each binding in turn sets `d[name]`, so a later binding of the
      same name overwrites an earlier one; the first unclassifiable binding
      aborts. */
  function RowFrom(d: map<string, Term>, bs: seq<BindingElem>): Result<map<string, Term>>
    decreases |bs|
  {
    if bs == [] then Ok(d)
    else match BindingValue(bs[0])
      case Err(e) => Err(e)
      case Ok(v) => RowFrom(d[bs[0].name := v], bs[1..])
  }

  /** The names of a result's bindings. */
  function Names(bs: seq<BindingElem>): set<string>
  {
    set i | 0 <= i < |bs| :: bs[i].name
  }

  /** Binding `j` is the last one of its name. */
  predicate LastOfName(bs: seq<BindingElem>, j: int)
    requires 0 <= j < |bs|
  {
    forall k :: j < k < |bs| ==> bs[k].name != bs[j].name
  }

  lemma NamesCons(bs: seq<BindingElem>)
    requires bs != []
    ensures Names(bs) == {bs[0].name} + Names(bs[1..])
  {
  }

  /** A row is built exactly when every binding can be classified; otherwise
      the error is the unclassifiable binding. */
  lemma {:induction false} RowFromSucceeds(d: map<string, Term>, bs: seq<BindingElem>)
    ensures RowFrom(d, bs).Ok? <==> forall j :: 0 <= j < |bs| ==> BindingValue(bs[j]).Ok?
    ensures RowFrom(d, bs).Err? ==> RowFrom(d, bs).error == UnclassifiableBinding
    decreases |bs|
  {
    if bs != [] {
      match BindingValue(bs[0])
      case Err(e) =>
      case Ok(v) =>
        RowFromSucceeds(d[bs[0].name := v], bs[1..]);
        assert forall j :: 1 <= j < |bs| ==> bs[j] == bs[1..][j - 1];
    }
  }

  /** Nothing is defaulted: the row's keys are the keys it started with plus
      the binding names, and keys no binding names keep their value. */
  lemma {:induction false} RowFromKeys(d: map<string, Term>, bs: seq<BindingElem>)
    ensures RowFrom(d, bs).Ok? ==> RowFrom(d, bs).value.Keys == d.Keys + Names(bs)
    ensures RowFrom(d, bs).Ok? ==>
              forall n :: n in d && n !in Names(bs) ==> RowFrom(d, bs).value[n] == d[n]
    decreases |bs|
  {
    if bs != [] {
      NamesCons(bs);
      match BindingValue(bs[0])
      case Err(e) =>
      case Ok(v) =>
        RowFromKeys(d[bs[0].name := v], bs[1..]);
    }
  }

  /** A repeated name keeps the value of its last binding. */
  lemma {:induction false} RowFromLastWins(d: map<string, Term>, bs: seq<BindingElem>)
    ensures RowFrom(d, bs).Ok? ==>
              forall j :: 0 <= j < |bs| && LastOfName(bs, j) ==>
                bs[j].name in RowFrom(d, bs).value && BindingValue(bs[j]) == Ok(RowFrom(d, bs).value[bs[j].name])
    decreases |bs|
  {
    if bs != [] && RowFrom(d, bs).Ok? {
      var rest := bs[1..];
      var v := BindingValue(bs[0]).value;
      var d' := d[bs[0].name := v];
      RowFromLastWins(d', rest);
      var row := RowFrom(d', rest).value;
      forall j | 0 <= j < |bs| && LastOfName(bs, j)
        ensures bs[j].name in row && BindingValue(bs[j]) == Ok(row[bs[j].name])
      {
        if j == 0 {
          NamesCons(bs);
          RowFromKeys(d', rest);
          assert bs[0].name !in Names(rest) by {
            forall i | 0 <= i < |rest| ensures rest[i].name != bs[0].name {
              assert rest[i] == bs[i + 1];
            }
          }
        } else {
          assert bs[j] == rest[j - 1];
          assert LastOfName(rest, j - 1) by {
            forall k | j - 1 < k < |rest| ensures rest[k].name != rest[j - 1].name {
              assert rest[k] == bs[k + 1];
            }
          }
        }
      }
    }
  }

  /** `row` is what the bindings `bs` build: exactly their names as keys,
      each holding the value of the last binding of that name. */
  ghost predicate RowMatches(bs: seq<BindingElem>, row: map<string, Term>)
  {
    && row.Keys == Names(bs)
    && forall j :: 0 <= j < |bs| && LastOfName(bs, j) ==>
         bs[j].name in row && BindingValue(bs[j]) == Ok(row[bs[j].name])
  }

  /** One `result` element gives a row exactly when each of its bindings can
      be classified, and that row holds what its bindings say. */
  lemma RowShape(bs: seq<BindingElem>)
    ensures RowFrom(map[], bs).Ok? <==> forall j :: 0 <= j < |bs| ==> BindingValue(bs[j]).Ok?
    ensures RowFrom(map[], bs).Err? ==> RowFrom(map[], bs).error == UnclassifiableBinding
    ensures RowFrom(map[], bs).Ok? ==> RowMatches(bs, RowFrom(map[], bs).value)
  {
    RowFromSucceeds(map[], bs);
    RowFromKeys(map[], bs);
    RowFromLastWins(map[], bs);
  }

  /** The list `results` the outer loop ends with, starting from `acc`: one
      row per `result` element in document order; the first failing row
      aborts. */
  function RowsFrom(acc: seq<map<string, Term>>, rs: seq<ResultElem>): Result<seq<map<string, Term>>>
    decreases |rs|
  {
    if rs == [] then Ok(acc)
    else match RowFrom(map[], rs[0].bindings)
      case Err(e) => Err(e)
      case Ok(row) => RowsFrom(acc + [row], rs[1..])
  }

  /** The rows are built exactly when every `result` gives a row. */
  lemma {:induction false} RowsFromSucceeds(acc: seq<map<string, Term>>, rs: seq<ResultElem>)
    ensures RowsFrom(acc, rs).Ok? <==> forall i :: 0 <= i < |rs| ==> RowFrom(map[], rs[i].bindings).Ok?
    decreases |rs|
  {
    if rs != [] {
      match RowFrom(map[], rs[0].bindings)
      case Err(e) =>
      case Ok(row) =>
        RowsFromSucceeds(acc + [row], rs[1..]);
        assert forall i :: 1 <= i < |rs| ==> rs[i] == rs[1..][i - 1];
    }
  }

  /** One row per `result`, in order, each the row its bindings build, after
      the rows already collected. */
  lemma {:induction false} RowsFromContents(acc: seq<map<string, Term>>, rs: seq<ResultElem>)
    ensures RowsFrom(acc, rs).Ok? ==>
              |RowsFrom(acc, rs).value| == |acc| + |rs| && RowsFrom(acc, rs).value[..|acc|] == acc
    ensures RowsFrom(acc, rs).Ok? ==>
              forall i :: 0 <= i < |rs| ==> RowFrom(map[], rs[i].bindings) == Ok(RowsFrom(acc, rs).value[|acc| + i])
    decreases |rs|
  {
    if rs != [] && RowsFrom(acc, rs).Ok? {
      var row := RowFrom(map[], rs[0].bindings).value;
      var acc' := acc + [row];
      RowsFromContents(acc', rs[1..]);
      var out := RowsFrom(acc', rs[1..]).value;
      assert out[..|acc'|] == acc';
      assert out[..|acc|] == out[..|acc'|][..|acc|];
      forall i | 0 <= i < |rs|
        ensures RowFrom(map[], rs[i].bindings) == Ok(out[|acc| + i])
      {
        if i == 0 {
          assert out[|acc|] == out[..|acc'|][|acc|];
        } else {
          assert rs[i] == rs[1..][i - 1];
          assert RowFrom(map[], rs[1..][i - 1].bindings) == Ok(out[|acc'| + (i - 1)]);
        }
      }
    }
  }

  /** SparqlApi.select after parsing: the headers from the first `head`, one
      row per `result` of the first `results`. A missing `head` or `results`
      element and an unclassifiable binding are errors. */
  function TableOf(doc: ResultsDoc): Result<Table>
  {
    match HeadOf(doc)
    case None => Err(MissingElement("head"))
    case Some(items) =>
      var headers := VariableNames(items);
      match ResultsOf(doc)
      case None => Err(MissingElement("results"))
      case Some(rs) =>
        match RowsFrom([], rs)
        case Err(e) => Err(e)
        case Ok(rows) => Ok(Table(headers, rows))
  }

  /** A SELECT result is decoded exactly when the document has `head` and
      `results` and every binding can be classified; whatever else goes wrong
      is a missing element or an unclassifiable binding. */
  lemma SelectSucceeds(doc: ResultsDoc)
    ensures TableOf(doc).Ok? <==>
              HeadOf(doc).Some? && ResultsOf(doc).Some? &&
              forall i, j :: 0 <= i < |ResultsOf(doc).value| && 0 <= j < |ResultsOf(doc).value[i].bindings| ==>
                BindingValue(ResultsOf(doc).value[i].bindings[j]).Ok?
    ensures TableOf(doc).Err? ==>
              TableOf(doc).error in {MissingElement("head"), MissingElement("results"), UnclassifiableBinding}
  {
    if HeadOf(doc).Some? && ResultsOf(doc).Some? {
      var rs := ResultsOf(doc).value;
      assert TableOf(doc).Ok? <==> RowsFrom([], rs).Ok?;
      RowsFromSucceeds([], rs);
      UnclassifiableRowsFrom([], rs);
      forall i | 0 <= i < |rs|
        ensures RowFrom(map[], rs[i].bindings).Ok? <==>
                  forall j :: 0 <= j < |rs[i].bindings| ==> BindingValue(rs[i].bindings[j]).Ok?
      {
        RowShape(rs[i].bindings);
      }
    }
  }

  /** The shape of a decoded SELECT result: the headers are the head's
      variable names in document order; there is one row per `result`, in
      document order; a row's keys are exactly its bindings' names and each
      maps to the value of the last binding of that name. */
  lemma SelectContents(doc: ResultsDoc)
    ensures TableOf(doc).Ok? ==>
              var t, rs := TableOf(doc).value, ResultsOf(doc).value;
              && t.headers == VariableNames(HeadOf(doc).value)
              && |t.rows| == |rs|
              && forall i :: 0 <= i < |rs| ==> RowMatches(rs[i].bindings, t.rows[i])
  {
    if TableOf(doc).Ok? {
      var rs := ResultsOf(doc).value;
      var rows := RowsFrom([], rs).value;
      assert TableOf(doc).value == Table(VariableNames(HeadOf(doc).value), rows);
      RowsMatch(rs);
    }
  }

  /** Each row built from a list of `result` elements matches its element. */
  lemma RowsMatch(rs: seq<ResultElem>)
    requires RowsFrom([], rs).Ok?
    ensures |RowsFrom([], rs).value| == |rs|
    ensures forall i :: 0 <= i < |rs| ==> RowMatches(rs[i].bindings, RowsFrom([], rs).value[i])
  {
    var rows := RowsFrom([], rs).value;
    RowsFromContents([], rs);
    forall i | 0 <= i < |rs|
      ensures RowMatches(rs[i].bindings, rows[i])
    {
      assert RowFrom(map[], rs[i].bindings) == Ok(rows[0 + i]);
      RowShape(rs[i].bindings);
    }
  }

  /** The only way building the rows fails is an unclassifiable binding. */
  lemma {:induction false} UnclassifiableRowsFrom(acc: seq<map<string, Term>>, rs: seq<ResultElem>)
    ensures RowsFrom(acc, rs).Err? ==> RowsFrom(acc, rs).error == UnclassifiableBinding
    decreases |rs|
  {
    if rs != [] {
      RowShape(rs[0].bindings);
      match RowFrom(map[], rs[0].bindings)
      case Err(e) =>
      case Ok(row) => UnclassifiableRowsFrom(acc + [row], rs[1..]);
    }
  }

  /** SparqlApi.select's decoding loop: `results` is built by appending one
      dict per `result`, each dict updated once per binding. */
  method DecodeSelect(doc: ResultsDoc) returns (r: Result<Table>)
    ensures r == TableOf(doc)
  {
    var head := HeadOf(doc);
    if head.None? {
      return Err(MissingElement("head"));
    }
    var headers := VariableNames(head.value);
    var found := ResultsOf(doc);
    if found.None? {
      return Err(MissingElement("results"));
    }
    var rs := found.value;
    var results: seq<map<string, Term>> := [];
    var i := 0;
    while i < |rs|
      invariant 0 <= i <= |rs|
      invariant RowsFrom(results, rs[i..]) == RowsFrom([], rs)
    {
      var bs := rs[i].bindings;
      var d: map<string, Term> := map[];
      var j := 0;
      while j < |bs|
        invariant 0 <= j <= |bs|
        invariant RowFrom(d, bs[j..]) == RowFrom(map[], bs)
      {
        var value := BindingValue(bs[j]);
        if value.Err? {
          assert RowFrom(map[], bs) == Err(value.error);
          assert rs[i..][0] == rs[i];
          return Err(value.error);
        }
        assert bs[j..][1..] == bs[j + 1..];
        d := d[bs[j].name := value.value];
        j := j + 1;
      }
      assert bs[j..] == [];
      assert rs[i..][0] == rs[i] && rs[i..][1..] == rs[i + 1..];
      results := results + [d];
      i := i + 1;
    }
    assert rs[i..] == [];
    r := Ok(Table(headers, results));
  }
}
