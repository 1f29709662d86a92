/** The query's wire form (query_codec.go, query_validate.go): a printer and a parser over
    JSON values, with every zero-valued field left out. */
module QueryCodec {
  import opened Graphs
  import opened Options

  datatype Json =
    | Null
    | Bool(b: bool)
    | Num(n: real)
    | Str(s: string)
    | Arr(items: seq<Json>)
    | Obj(fields: seq<Field>)

  datatype Field = Field(name: string, value: Json)

  // ---- Queries ----

  // An operand is absent when it is Null. `within` is the set of the in operator, which may be
  // present and empty.
  datatype Comparison = Comparison(
    eq: Json, ne: Json, lt: Json, le: Json, gt: Json, ge: Json, within: Option<seq<Json>>, glob: string)

  datatype Where = Where(conj: seq<Where>, disj: seq<Where>, neg: Option<Where>, field: string,
    test: Option<Comparison>)

  datatype PathStep = PathStep(edges: seq<string>, dir: string, min: Option<int>, max: int, nodes: seq<string>)

  // An absent path and an empty one are two queries.
  datatype Select = Select(branch: string, head: Option<Id>, claim: seq<Option<Id>>, path: Option<seq<PathStep>>)

  datatype Content = Content(max: int, overflow: string)

  datatype Output = Output(shape: string, detail: string, form: string, content: Option<Content>, encoding: string)

  datatype OrderKey = OrderKey(field: string, compare: string, dir: string)

  // limit.time is a duration in nanoseconds.
  datatype Query = Query(
    select: Select, where: Option<Where>, output: Output, order: seq<OrderKey>,
    results: int, time: int, layer: string, report: string)

  /** How ids and durations are spelled, which time form a field's operands take, and when a
      name is blank: what the codec leaves to other packages. */
  datatype Spelling = Spelling(
    showId: Id -> string, readId: string -> Option<Id>,
    showTime: int -> string, readTime: string -> Option<int>,
    timeForm: string -> Option<string -> bool>, blank: string -> bool)

  ghost predicate Spells(sp: Spelling) {
    && (forall id: Id :: sp.readId(sp.showId(id)) == Some(id))
    && (forall t :: t > 0 ==> sp.readTime(sp.showTime(t)) == Some(t))
    && sp.blank("")
  }

  // ---- ValidateQuery ----

  predicate OneOf(got: string, allowed: set<string>) {
    got in allowed
  }

  predicate ValidStep(s: PathStep) {
    && OneOf(s.dir, {"", "provenance", "uses", "connections"})
    && (s.min.Some? ==> s.min.value >= 0) && s.max >= 0
    && (s.max > 0 ==> (if s.min.Some? then s.min.value else 1) <= s.max)
  }

  function Operators(c: Comparison): nat {
    (if c.eq != Null then 1 else 0) + (if c.ne != Null then 1 else 0) + (if c.lt != Null then 1 else 0) +
    (if c.le != Null then 1 else 0) + (if c.gt != Null then 1 else 0) + (if c.ge != Null then 1 else 0) +
    (if c.within.Some? then 1 else 0) + (if c.glob != "" then 1 else 0)
  }

  predicate TimeOperand(check: string -> bool, v: Json) {
    v == Null || (v.Str? && check(v.s))
  }

  predicate ValidComparison(sp: Spelling, field: string, c: Comparison) {
    Operators(c) == 1 &&
    match sp.timeForm(field)
    case None => true
    case Some(check) =>
      && TimeOperand(check, c.eq) && TimeOperand(check, c.ne) && TimeOperand(check, c.lt)
      && TimeOperand(check, c.le) && TimeOperand(check, c.gt) && TimeOperand(check, c.ge)
      && (c.within.Some? ==> forall v :: v in c.within.value ==> TimeOperand(check, v))
      && c.glob == ""
  }

  function Forms(w: Where): nat {
    (if w.conj != [] then 1 else 0) + (if w.disj != [] then 1 else 0) + (if w.neg.Some? then 1 else 0) +
    (if w.field != "" || w.test.Some? then 1 else 0)
  }

  predicate ValidWhere(sp: Spelling, w: Where) {
    && Forms(w) == 1
    && (w.field != "" || w.test.Some? ==> w.field != "" && w.test.Some? && ValidComparison(sp, w.field, w.test.value))
    && (forall i :: 0 <= i < |w.conj| ==> ValidWhere(sp, w.conj[i]))
    && (forall i :: 0 <= i < |w.disj| ==> ValidWhere(sp, w.disj[i]))
    && (w.neg.Some? ==> ValidWhere(sp, w.neg.value))
  }

  predicate ValidOutput(o: Output) {
    && OneOf(o.shape, {"", "single", "path"}) && OneOf(o.detail, {"", "id", "claims", "envelope"})
    && OneOf(o.form, {"", "original", "materialized"}) && OneOf(o.encoding, {"", "native", "json", "cbor"})
    && (o.detail == "envelope" ==> o.form != "materialized" && o.encoding != "json")
    && (o.content.Some? ==> o.content.value.max >= 0 && OneOf(o.content.value.overflow, {"", "cutoff", "omit"}))
  }

  predicate ValidOrder(k: OrderKey) {
    && k.field != "" && OneOf(k.compare, {"", "numeric", "lexical", "temporal"}) && OneOf(k.dir, {"", "asc", "desc"})
  }

  predicate ValidQuery(sp: Spelling, q: Query) {
    && q.select.branch != "" && (q.select.branch == "$universe" ==> q.select.head.Some?)
    && (q.select.path.Some? ==> forall i :: 0 <= i < |q.select.path.value| ==> ValidStep(q.select.path.value[i]))
    && (q.where.Some? ==> ValidWhere(sp, q.where.value))
    && ValidOutput(q.output) && q.results >= 0 && q.time >= 0
    && (forall i :: 0 <= i < |q.order| ==> ValidOrder(q.order[i]))
    && (q.layer != "" ==> !sp.blank(q.layer))
    && OneOf(q.report, {"", "error", "warn", "info", "debug", "trace"})
  }

  // ---- Printing ----

  // A field of an object under print: its name, and its value unless it is left out.
  datatype Slot = Slot(name: string, value: Option<Json>)

  function Build(slots: seq<Slot>): seq<Field> {
    if slots == [] then []
    else
      var last := slots[|slots| - 1];
      Build(slots[..|slots| - 1]) + if last.value.Some? then [Field(last.name, last.value.value)] else []
  }

  function PrintStr(s: string): Option<Json> {
    if s == "" then None else Some(Str(s))
  }

  function PrintInt(n: int): Option<Json> {
    if n == 0 then None else Some(Num(n as real))
  }

  function StrItems(ss: seq<string>): (r: seq<Json>)
    ensures |r| == |ss| && forall i :: 0 <= i < |r| ==> r[i] == Str(ss[i])
  {
    seq(|ss|, i requires 0 <= i < |ss| => Str(ss[i]))
  }

  function ListOf(items: seq<Json>): Option<Json> {
    if items == [] then None else Some(Arr(items))
  }

  function PrintStrs(ss: seq<string>): Option<Json> {
    ListOf(StrItems(ss))
  }

  function PrintComparison(c: Comparison): Json {
    Obj([
      if c.eq != Null then Field("eq", c.eq)
      else if c.ne != Null then Field("ne", c.ne)
      else if c.lt != Null then Field("lt", c.lt)
      else if c.le != Null then Field("le", c.le)
      else if c.gt != Null then Field("gt", c.gt)
      else if c.ge != Null then Field("ge", c.ge)
      else if c.within.Some? then Field("in", Arr(c.within.value))
      else Field("glob", Str(c.glob))])
  }

  function PrintConj(w: Where): (r: seq<Json>)
    ensures |r| == |w.conj| && forall i :: 0 <= i < |r| ==> r[i] == PrintWhere(w.conj[i])
    decreases w, 0
  {
    seq(|w.conj|, i requires 0 <= i < |w.conj| => PrintWhere(w.conj[i]))
  }

  function PrintDisj(w: Where): (r: seq<Json>)
    ensures |r| == |w.disj| && forall i :: 0 <= i < |r| ==> r[i] == PrintWhere(w.disj[i])
    decreases w, 0
  {
    seq(|w.disj|, i requires 0 <= i < |w.disj| => PrintWhere(w.disj[i]))
  }

  function PrintWhere(w: Where): Json
    decreases w, 1
  {
    Obj(Build([
      Slot("and", ListOf(PrintConj(w))),
      Slot("or", ListOf(PrintDisj(w))),
      Slot("not", if w.neg.None? then None else Some(PrintWhere(w.neg.value))),
      Slot("field", PrintStr(w.field)),
      Slot("test", if w.test.None? then None else Some(PrintComparison(w.test.value)))]))
  }

  function PrintStep(s: PathStep): Json {
    Obj(Build([
      Slot("edges", PrintStrs(s.edges)), Slot("dir", PrintStr(s.dir)),
      Slot("min", if s.min.None? then None else Some(Num(s.min.value as real))),
      Slot("max", PrintInt(s.max)), Slot("nodes", PrintStrs(s.nodes))]))
  }

  function PrintSteps(steps: seq<PathStep>): (r: seq<Json>)
    ensures |r| == |steps| && forall i :: 0 <= i < |r| ==> r[i] == PrintStep(steps[i])
  {
    seq(|steps|, i requires 0 <= i < |steps| => PrintStep(steps[i]))
  }

  /** The anchors once each, absent ids dropped. */
  function Anchors(ids: seq<Option<Id>>): (r: seq<Id>)
    ensures forall id :: id in r <==> Some(id) in ids
    ensures forall i, j :: 0 <= i < j < |r| ==> r[i] != r[j]
  {
    if ids == [] then []
    else
      var r, last := Anchors(ids[..|ids| - 1]), ids[|ids| - 1];
      if last.None? || last.value in r then r else r + [last.value]
  }

  function ShowIds(sp: Spelling, ids: seq<Id>): (r: seq<string>)
    ensures |r| == |ids| && forall i :: 0 <= i < |r| ==> r[i] == sp.showId(ids[i])
  {
    seq(|ids|, i requires 0 <= i < |ids| => sp.showId(ids[i]))
  }

  function PrintAnchors(sp: Spelling, ids: seq<Id>): Option<Json> {
    if ids == [] then None
    else if |ids| == 1 then Some(Str(sp.showId(ids[0])))
    else PrintStrs(ShowIds(sp, ids))
  }

  function PrintSelect(sp: Spelling, s: Select): Json {
    Obj(Build([
      Slot("branch", Some(Str(s.branch))),
      Slot("head", if s.head.None? then None else Some(Str(sp.showId(s.head.value)))),
      Slot("claim", PrintAnchors(sp, Anchors(s.claim))),
      Slot("path", if s.path.None? then None else Some(Arr(PrintSteps(s.path.value))))]))
  }

  function Wire(encoding: string): string {
    if encoding == "native" then "" else encoding
  }

  function PrintOutput(o: Output): Option<Json> {
    if o.shape == "" && o.detail == "" && o.form == "" && o.content.None? && Wire(o.encoding) == "" then None
    else Some(Obj(Build([
      Slot("shape", PrintStr(o.shape)), Slot("detail", PrintStr(o.detail)), Slot("form", PrintStr(o.form)),
      Slot("content", if o.content.None? then None else Some(PrintContent(o.content.value))),
      Slot("encoding", PrintStr(Wire(o.encoding)))])))
  }

  function PrintContent(c: Content): Json {
    Obj(Build([Slot("max", Some(Num(c.max as real))), Slot("overflow", Some(Str(c.overflow)))]))
  }

  function PrintOrder(k: OrderKey): Json {
    Obj(Build([Slot("field", Some(Str(k.field))), Slot("compare", PrintStr(k.compare)), Slot("dir", PrintStr(k.dir))]))
  }

  function PrintOrders(keys: seq<OrderKey>): (r: seq<Json>)
    ensures |r| == |keys| && forall i :: 0 <= i < |r| ==> r[i] == PrintOrder(keys[i])
  {
    seq(|keys|, i requires 0 <= i < |keys| => PrintOrder(keys[i]))
  }

  function PrintLimit(sp: Spelling, results: int, time: int): Option<Json> {
    if results == 0 && time == 0 then None
    else Some(Obj(Build([
      Slot("results", PrintInt(results)), Slot("time", if time == 0 then None else Some(Str(sp.showTime(time))))])))
  }

  function PrintExecution(layer: string, report: string): Option<Json> {
    if layer == "" && report == "" then None
    else Some(Obj(Build([Slot("layer", PrintStr(layer)), Slot("report", PrintStr(report))])))
  }

  function PrintQuery(sp: Spelling, q: Query): Json {
    Obj(Build([
      Slot("select", Some(PrintSelect(sp, q.select))),
      Slot("where", if q.where.None? then None else Some(PrintWhere(q.where.value))),
      Slot("output", PrintOutput(q.output)),
      Slot("order", ListOf(PrintOrders(q.order))),
      Slot("limit", PrintLimit(sp, q.results, q.time)),
      Slot("execution", PrintExecution(q.layer, q.report))]))
  }

  /** EncodeQuery. */
  function EncodeQuery(sp: Spelling, q: Query): Option<Json> {
    if ValidQuery(sp, q) then Some(PrintQuery(sp, q)) else None
  }

  // ---- Parsing ----

  /** The object's field of that name. A null one reads as absent, a repeated one as its last. */
  function Get(fields: seq<Field>, name: string): (r: Option<Json>)
    ensures r.Some? ==> exists i :: 0 <= i < |fields| && fields[i] == Field(name, r.value)
  {
    if fields == [] then None
    else
      var last := fields[|fields| - 1];
      if last.name == name then (if last.value == Null then None else Some(last.value))
      else Get(fields[..|fields| - 1], name)
  }

  predicate Known(fields: seq<Field>, names: set<string>) {
    forall i :: 0 <= i < |fields| ==> fields[i].name in names
  }

  function ParseStr(j: Option<Json>): Option<string> {
    if j.None? then Some("") else if j.value.Str? then Some(j.value.s) else None
  }

  function ParseInt(j: Option<Json>): Option<Option<int>> {
    if j.None? then Some(None)
    else if j.value.Num? && j.value.n.Floor as real == j.value.n then Some(Some(j.value.n.Floor))
    else None
  }

  /** Parse every item, or none. */
  function AllOf<T>(items: seq<Option<T>>): (r: Option<seq<T>>)
    ensures r.Some? <==> forall i :: 0 <= i < |items| ==> items[i].Some?
    ensures r.Some? ==> |r.value| == |items| && forall i :: 0 <= i < |items| ==> items[i] == Some(r.value[i])
  {
    if items == [] then Some([])
    else
      var rest, last := AllOf(items[..|items| - 1]), items[|items| - 1];
      if rest.Some? && last.Some? then Some(rest.value + [last.value]) else None
  }

  function ParseStrs(j: Option<Json>): Option<seq<string>> {
    if j.None? then Some([])
    else if !j.value.Arr? then None
    else AllOf(seq(|j.value.items|, i requires 0 <= i < |j.value.items| => ParseOneStr(j.value.items[i])))
  }

  function ParseOneStr(j: Json): Option<string> {
    if j.Str? then Some(j.s) else None
  }

  const NO_TEST := Comparison(Null, Null, Null, Null, Null, Null, None, "")

  function ParseComparison(j: Json): Option<Comparison> {
    if !j.Obj? || |j.fields| != 1 then None
    else
      var op, v := j.fields[0].name, j.fields[0].value;
      if op == "eq" then Some(NO_TEST.(eq := v))
      else if op == "ne" then Some(NO_TEST.(ne := v))
      else if op == "lt" then Some(NO_TEST.(lt := v))
      else if op == "le" then Some(NO_TEST.(le := v))
      else if op == "gt" then Some(NO_TEST.(gt := v))
      else if op == "ge" then Some(NO_TEST.(ge := v))
      else if op == "in" && v.Arr? then Some(NO_TEST.(within := Some(v.items)))
      else if op == "glob" && v.Str? then Some(NO_TEST.(glob := v.s))
      else None
  }

  lemma GetIsBelow(fields: seq<Field>, name: string)
    ensures Get(fields, name).Some? ==> Get(fields, name).value < Obj(fields)
  {
    if Get(fields, name).Some? {
      var i :| 0 <= i < |fields| && fields[i] == Field(name, Get(fields, name).value);
      assert fields[i] < Obj(fields);
    }
  }

  function Items(j: Option<Json>): (r: seq<Json>)
    ensures forall i :: 0 <= i < |r| ==> j.Some? && r[i] < j.value
  {
    if j.Some? && j.value.Arr? then j.value.items else []
  }

  /** Absent, or an array. */
  predicate IsList(j: Option<Json>) {
    j.None? || j.value.Arr?
  }

  /** The subtrees listed under one name. */
  function ParseWheres(j: Json, name: string): (r: Option<seq<Where>>)
    requires j.Obj?
    decreases j, 0
  {
    GetIsBelow(j.fields, name);
    var items := Items(Get(j.fields, name));
    if IsList(Get(j.fields, name)) then AllOf(seq(|items|, i requires 0 <= i < |items| => ParseWhere(items[i])))
      else None
  }

  function ParseWhere(j: Json): Option<Where>
    decreases j, 1
  {
    if !j.Obj? || !Known(j.fields, {"and", "or", "not", "field", "test"}) then None
    else
      GetIsBelow(j.fields, "not");
      var conj, disj := ParseWheres(j, "and"), ParseWheres(j, "or");
      var neg, test := Get(j.fields, "not"), Get(j.fields, "test");
      var n := if neg.None? then Some(None) else Optional(ParseWhere(neg.value));
      var f := ParseStr(Get(j.fields, "field"));
      var c := if test.None? then Some(None) else Optional(ParseComparison(test.value));
      if conj.Some? && disj.Some? && n.Some? && f.Some? && c.Some?
      then Some(Where(conj.value, disj.value, n.value, f.value, c.value))
      else None
  }

  function Optional<T>(r: Option<T>): Option<Option<T>> {
    if r.Some? then Some(r) else None
  }

  function ParseStep(j: Json): Option<PathStep> {
    if !j.Obj? || !Known(j.fields, {"edges", "dir", "min", "max", "nodes"}) then None
    else
      var edges, nodes := ParseStrs(Get(j.fields, "edges")), ParseStrs(Get(j.fields, "nodes"));
      var dir := ParseStr(Get(j.fields, "dir"));
      var min, max := ParseInt(Get(j.fields, "min")), ParseInt(Get(j.fields, "max"));
      if edges.Some? && nodes.Some? && dir.Some? && min.Some? && max.Some?
      then Some(PathStep(edges.value, dir.value, min.value,
        if max.value.Some? then max.value.value else 0, nodes.value))
      else None
  }

  predicate Distinct(ss: seq<string>) {
    forall i, j :: 0 <= i < j < |ss| ==> ss[i] != ss[j]
  }

  function ReadIds(sp: Spelling, spelled: seq<string>): Option<seq<Id>> {
    AllOf(seq(|spelled|, i requires 0 <= i < |spelled| => sp.readId(spelled[i])))
  }

  function Stated(ids: seq<Id>): seq<Option<Id>> {
    seq(|ids|, i requires 0 <= i < |ids| => Some(ids[i]))
  }

  /** The anchors a select states: a single string, or an array of strings. */
  function ParseAnchors(sp: Spelling, j: Option<Json>): Option<seq<Option<Id>>> {
    if j.None? then Some([])
    else
      var spelled := if j.value.Str? then Some([j.value.s]) else ParseStrs(j);
      if spelled.None? || spelled.value == [] || !Distinct(spelled.value) then None
      else
        var ids := ReadIds(sp, spelled.value);
        if ids.Some? then Some(Stated(ids.value)) else None
  }

  function ParseId(sp: Spelling, j: Option<Json>): Option<Option<Id>> {
    if j.None? then Some(None) else if j.value.Str? then Optional(sp.readId(j.value.s)) else None
  }

  function ParsePath(j: Option<Json>): Option<Option<seq<PathStep>>> {
    if j.None? then Some(None)
    else if !j.value.Arr? then None
    else Optional(AllOf(seq(|j.value.items|, i requires 0 <= i < |j.value.items| => ParseStep(j.value.items[i]))))
  }

  function ParseSelect(sp: Spelling, j: Json): Option<Select> {
    if !j.Obj? || !Known(j.fields, {"branch", "head", "claim", "path"}) then None
    else
      var branch, head := ParseStr(Get(j.fields, "branch")), ParseId(sp, Get(j.fields, "head"));
      var claim, path := ParseAnchors(sp, Get(j.fields, "claim")), ParsePath(Get(j.fields, "path"));
      if branch.Some? && head.Some? && claim.Some? && path.Some?
      then Some(Select(branch.value, head.value, claim.value, path.value)) else None
  }

  function ParseContent(j: Option<Json>): Option<Option<Content>> {
    if j.None? then Some(None)
    else if !j.value.Obj? || !Known(j.value.fields, {"max", "overflow"}) then None
    else
      var max, overflow := ParseInt(Get(j.value.fields, "max")), ParseStr(Get(j.value.fields, "overflow"));
      if max.Some? && overflow.Some?
      then Some(Some(Content(if max.value.Some? then max.value.value else 0, overflow.value))) else None
  }

  const NO_OUTPUT := Output("", "", "", None, "")

  /** The native encoding is not a wire value. */
  function ParseOutput(j: Option<Json>): Option<Output> {
    if j.None? then Some(NO_OUTPUT)
    else if !j.value.Obj? || !Known(j.value.fields, {"shape", "detail", "form", "content", "encoding"}) then None
    else
      var fs := j.value.fields;
      var shape, detail, form := ParseStr(Get(fs, "shape")), ParseStr(Get(fs, "detail")), ParseStr(Get(fs, "form"));
      var content, encoding := ParseContent(Get(fs, "content")), ParseStr(Get(fs, "encoding"));
      if shape.Some? && detail.Some? && form.Some? && content.Some? && encoding.Some? &&
        OneOf(encoding.value, {"", "json", "cbor"})
      then Some(Output(shape.value, detail.value, form.value, content.value, encoding.value)) else None
  }

  function ParseOrder(j: Json): Option<OrderKey> {
    if !j.Obj? || !Known(j.fields, {"field", "compare", "dir"}) then None
    else
      var field, compare := ParseStr(Get(j.fields, "field")), ParseStr(Get(j.fields, "compare"));
      var dir := ParseStr(Get(j.fields, "dir"));
      if field.Some? && compare.Some? && dir.Some? then Some(OrderKey(field.value, compare.value, dir.value)) else None
  }

  function ParseOrders(j: Option<Json>): Option<seq<OrderKey>> {
    if j.None? then Some([])
    else if !j.value.Arr? then None
    else AllOf(seq(|j.value.items|, i requires 0 <= i < |j.value.items| => ParseOrder(j.value.items[i])))
  }

  function ParseTime(sp: Spelling, j: Option<Json>): Option<int> {
    if j.None? then Some(0) else if j.value.Str? then sp.readTime(j.value.s) else None
  }

  function ParseLimit(sp: Spelling, j: Option<Json>): Option<(int, int)> {
    if j.None? then Some((0, 0))
    else if !j.value.Obj? || !Known(j.value.fields, {"results", "time"}) then None
    else
      var results, time := ParseInt(Get(j.value.fields, "results")), ParseTime(sp, Get(j.value.fields, "time"));
      if results.Some? && time.Some?
      then Some((if results.value.Some? then results.value.value else 0, time.value)) else None
  }

  /** A stated layer must name one, and the two failure levels of a report are Go's alone. */
  function ParseExecution(sp: Spelling, j: Option<Json>): Option<(string, string)> {
    if j.None? then Some(("", ""))
    else if !j.value.Obj? || !Known(j.value.fields, {"layer", "report"}) then None
    else
      var stated := Get(j.value.fields, "layer");
      var layer, report := ParseStr(stated), ParseStr(Get(j.value.fields, "report"));
      if layer.Some? && report.Some? && (stated.Some? ==> !sp.blank(layer.value)) &&
        OneOf(report.value, {"", "info", "debug", "trace"})
      then Some((layer.value, report.value)) else None
  }

  function ParseQuery(sp: Spelling, j: Json): Option<Query> {
    if !j.Obj? || !Known(j.fields, {"select", "where", "output", "order", "limit", "execution"}) then None
    else
      var sel := Get(j.fields, "select");
      var select := if sel.None? then Some(Select("", None, [], None)) else ParseSelect(sp, sel.value);
      var wh := Get(j.fields, "where");
      var where := if wh.None? then Some(None) else Optional(ParseWhere(wh.value));
      var output, order := ParseOutput(Get(j.fields, "output")), ParseOrders(Get(j.fields, "order"));
      var limit, execution := ParseLimit(sp, Get(j.fields, "limit")), ParseExecution(sp, Get(j.fields, "execution"));
      if select.Some? && where.Some? && output.Some? && order.Some? && limit.Some? && execution.Some?
      then Some(Query(select.value, where.value, output.value, order.value, limit.value.0, limit.value.1,
        execution.value.0, execution.value.1))
      else None
  }

  /** DecodeQuery. */
  function DecodeQuery(sp: Spelling, j: Json): Option<Query> {
    var q := ParseQuery(sp, j);
    if q.Some? && ValidQuery(sp, q.value) then q else None
  }

  // ---- Printer and parser undo each other ----

  ghost predicate Named(slots: seq<Slot>) {
    && (forall i, j :: 0 <= i < j < |slots| ==> slots[i].name != slots[j].name)
    && (forall i :: 0 <= i < |slots| && slots[i].value.Some? ==> slots[i].value.value != Null)
  }

  lemma {:induction false} GetNone(fields: seq<Field>, name: string)
    requires forall i :: 0 <= i < |fields| ==> fields[i].name != name
    ensures Get(fields, name) == None
  {
    if fields != [] {
      GetNone(fields[..|fields| - 1], name);
    }
  }

  lemma {:induction false} BuildNames(slots: seq<Slot>, f: Field)
    requires f in Build(slots)
    ensures exists i :: 0 <= i < |slots| && slots[i] == Slot(f.name, Some(f.value))
  {
    var n := |slots| - 1;
    if f in Build(slots[..n]) {
      BuildNames(slots[..n], f);
      var i :| 0 <= i < n && slots[..n][i] == Slot(f.name, Some(f.value));
      assert slots[i] == Slot(f.name, Some(f.value));
    }
  }

  /** Every field reads back from the object as it was printed, and it has no others. */
  lemma {:induction false} BuildGet(slots: seq<Slot>, i: nat)
    requires Named(slots) && i < |slots|
    ensures Get(Build(slots), slots[i].name) == slots[i].value
  {
    var n := |slots| - 1;
    var rest, last := Build(slots[..n]), slots[n];
    if last.value.Some? {
      var all := rest + [Field(last.name, last.value.value)];
      assert all[..|all| - 1] == rest;
    } else {
      assert rest + [] == rest;
    }
    if i < n {
      BuildGet(slots[..n], i);
    } else if last.value.None? {
      forall k | 0 <= k < |rest| ensures rest[k].name != last.name {
        BuildNames(slots[..n], rest[k]);
      }
      GetNone(rest, last.name);
    }
  }

  lemma BuildReads(slots: seq<Slot>)
    requires Named(slots)
    ensures forall i :: 0 <= i < |slots| ==> Get(Build(slots), slots[i].name) == slots[i].value
    ensures Known(Build(slots), NamesOf(slots))
  {
    forall i | 0 <= i < |slots| ensures Get(Build(slots), slots[i].name) == slots[i].value {
      BuildGet(slots, i);
    }
    forall k | 0 <= k < |Build(slots)| ensures Build(slots)[k].name in NamesOf(slots) {
      BuildNames(slots, Build(slots)[k]);
    }
  }

  function NamesOf(slots: seq<Slot>): set<string> {
    set s | s in slots :: s.name
  }

  lemma ComparisonTrip(sp: Spelling, field: string, c: Comparison)
    requires ValidComparison(sp, field, c)
    ensures ParseComparison(PrintComparison(c)) == Some(c)
  {
  }

  lemma StrTrip(s: string)
    ensures ParseStr(PrintStr(s)) == Some(s)
  {
  }

  lemma StrsTrip(ss: seq<string>)
    ensures ParseStrs(PrintStrs(ss)) == Some(ss)
  {
    var items := StrItems(ss);
    var parsed := AllOf(seq(|items|, i requires 0 <= i < |items| => ParseOneStr(items[i])));
    assert parsed.Some? && parsed.value == ss;
  }

  lemma Reads5(a: Slot, b: Slot, c: Slot, d: Slot, e: Slot)
    requires Named([a, b, c, d, e])
    ensures var fs := Build([a, b, c, d, e]);
      && Get(fs, a.name) == a.value && Get(fs, b.name) == b.value && Get(fs, c.name) == c.value
      && Get(fs, d.name) == d.value && Get(fs, e.name) == e.value
      && Known(fs, {a.name, b.name, c.name, d.name, e.name})
  {
    var slots := [a, b, c, d, e];
    BuildReads(slots);
    assert slots[0] == a && slots[1] == b && slots[2] == c && slots[3] == d && slots[4] == e;
    assert NamesOf(slots) == {a.name, b.name, c.name, d.name, e.name};
  }

  lemma StepReads(s: PathStep)
    ensures var fs := PrintStep(s).fields;
      && Get(fs, "edges") == PrintStrs(s.edges) && Get(fs, "dir") == PrintStr(s.dir)
      && Get(fs, "min") == (if s.min.None? then None else Some(Num(s.min.value as real)))
      && Get(fs, "max") == PrintInt(s.max) && Get(fs, "nodes") == PrintStrs(s.nodes)
      && Known(fs, {"edges", "dir", "min", "max", "nodes"})
  {
    Reads5(Slot("edges", PrintStrs(s.edges)), Slot("dir", PrintStr(s.dir)),
      Slot("min", if s.min.None? then None else Some(Num(s.min.value as real))),
      Slot("max", PrintInt(s.max)), Slot("nodes", PrintStrs(s.nodes)));
  }

  /** An absent number reads as 0, and is printed for it. */
  lemma IntTrip(n: int)
    ensures ParseInt(Some(Num(n as real))) == Some(Some(n))
    ensures ParseInt(PrintInt(n)) == Some(if n == 0 then None else Some(n))
  {
  }

  lemma StepParsed(s: PathStep, fs: seq<Field>)
    requires Known(fs, {"edges", "dir", "min", "max", "nodes"})
    requires ParseStrs(Get(fs, "edges")) == Some(s.edges) && ParseStrs(Get(fs, "nodes")) == Some(s.nodes)
    requires ParseStr(Get(fs, "dir")) == Some(s.dir) && ParseInt(Get(fs, "min")) == Some(s.min)
    requires ParseInt(Get(fs, "max")) == Some(if s.max == 0 then None else Some(s.max))
    ensures ParseStep(Obj(fs)) == Some(s)
  {
  }

  lemma StepTrip(s: PathStep)
    ensures ParseStep(PrintStep(s)) == Some(s)
  {
    StepReads(s);
    StrsTrip(s.edges);
    StrsTrip(s.nodes);
    StrTrip(s.dir);
    IntTrip(s.max);
    if s.min.Some? {
      IntTrip(s.min.value);
    }
    StepParsed(s, PrintStep(s).fields);
  }

  lemma WhereSlots(
    conj: Option<Json>, disj: Option<Json>, neg: Option<Json>, field: Option<Json>, test: Option<Json>)
    requires Some(Null) !in {conj, disj, neg, field, test}
    ensures var fs := Build(
      [Slot("and", conj), Slot("or", disj), Slot("not", neg), Slot("field", field), Slot("test", test)]);
      && Get(fs, "and") == conj && Get(fs, "or") == disj && Get(fs, "not") == neg && Get(fs, "field") == field
      && Get(fs, "test") == test && Known(fs, {"and", "or", "not", "field", "test"})
  {
    Reads5(Slot("and", conj), Slot("or", disj), Slot("not", neg), Slot("field", field), Slot("test", test));
  }

  lemma WhereReads(w: Where)
    ensures var fs := PrintWhere(w).fields;
      && Get(fs, "and") == ListOf(PrintConj(w)) && Get(fs, "or") == ListOf(PrintDisj(w))
      && Get(fs, "not") == (if w.neg.None? then None else Some(PrintWhere(w.neg.value)))
      && Get(fs, "field") == PrintStr(w.field)
      && Get(fs, "test") == (if w.test.None? then None else Some(PrintComparison(w.test.value)))
      && Known(fs, {"and", "or", "not", "field", "test"})
  {
    WhereSlots(ListOf(PrintConj(w)), ListOf(PrintDisj(w)),
      if w.neg.None? then None else Some(PrintWhere(w.neg.value)), PrintStr(w.field),
      if w.test.None? then None else Some(PrintComparison(w.test.value)));
  }

  /** A where tree of any depth reads back as itself. */
  lemma {:induction false} WhereTrip(sp: Spelling, w: Where)
    requires ValidWhere(sp, w)
    ensures ParseWhere(PrintWhere(w)) == Some(w)
    decreases w
  {
    WhereReads(w);
    var conj, disj := PrintConj(w), PrintDisj(w);
    forall i | 0 <= i < |w.conj| ensures ParseWhere(conj[i]) == Some(w.conj[i]) {
      WhereTrip(sp, w.conj[i]);
    }
    forall i | 0 <= i < |w.disj| ensures ParseWhere(disj[i]) == Some(w.disj[i]) {
      WhereTrip(sp, w.disj[i]);
    }
    var neg, test: Option<Json> := None, None;
    if w.neg.Some? {
      WhereTrip(sp, w.neg.value);
      neg := Some(PrintWhere(w.neg.value));
    }
    if w.test.Some? {
      ComparisonTrip(sp, w.field, w.test.value);
      test := Some(PrintComparison(w.test.value));
    }
    WhereAssembled(w, PrintWhere(w), conj, disj, neg, test);
  }

  lemma WhereAssembled(w: Where, j: Json, conj: seq<Json>, disj: seq<Json>, neg: Option<Json>, test: Option<Json>)
    requires j.Obj? && Known(j.fields, {"and", "or", "not", "field", "test"})
    requires Get(j.fields, "and") == ListOf(conj) && Get(j.fields, "or") == ListOf(disj)
    requires Get(j.fields, "not") == neg && Get(j.fields, "test") == test && Get(j.fields, "field") == PrintStr(w.field)
    requires |conj| == |w.conj| && forall i :: 0 <= i < |conj| ==> ParseWhere(conj[i]) == Some(w.conj[i])
    requires |disj| == |w.disj| && forall i :: 0 <= i < |disj| ==> ParseWhere(disj[i]) == Some(w.disj[i])
    requires neg.Some? == w.neg.Some? && (neg.Some? ==> ParseWhere(neg.value) == w.neg)
    requires test.Some? == w.test.Some? && (test.Some? ==> ParseComparison(test.value) == w.test)
    ensures ParseWhere(j) == Some(w)
  {
    WheresTrip(j, "and", conj, w.conj);
    WheresTrip(j, "or", disj, w.disj);
    WhereParsed(j, w, neg, test);
  }

  lemma WhereParsed(j: Json, w: Where, neg: Option<Json>, test: Option<Json>)
    requires j.Obj? && Known(j.fields, {"and", "or", "not", "field", "test"})
    requires ParseWheres(j, "and") == Some(w.conj) && ParseWheres(j, "or") == Some(w.disj)
    requires Get(j.fields, "not") == neg && Get(j.fields, "test") == test && Get(j.fields, "field") == PrintStr(w.field)
    requires neg.Some? == w.neg.Some? && (neg.Some? ==> ParseWhere(neg.value) == w.neg)
    requires test.Some? == w.test.Some? && (test.Some? ==> ParseComparison(test.value) == w.test)
    ensures ParseWhere(j) == Some(w)
  {
    StrTrip(w.field);
  }

  lemma WheresTrip(j: Json, name: string, items: seq<Json>, ws: seq<Where>)
    requires j.Obj? && Get(j.fields, name) == ListOf(items)
    requires |items| == |ws| && forall i :: 0 <= i < |ws| ==> ParseWhere(items[i]) == Some(ws[i])
    ensures ParseWheres(j, name) == Some(ws)
  {
    var found := Items(Get(j.fields, name));
    assert found == items;
    var parsed := AllOf(seq(|found|, i requires 0 <= i < |found| => ParseWhere(found[i])));
    assert parsed.Some? && parsed.value == ws;
  }

  lemma Reads2(a: Slot, b: Slot)
    requires Named([a, b])
    ensures var fs := Build([a, b]);
      Get(fs, a.name) == a.value && Get(fs, b.name) == b.value && Known(fs, {a.name, b.name})
  {
    var slots := [a, b];
    BuildReads(slots);
    assert slots[0] == a && slots[1] == b;
    assert NamesOf(slots) == {a.name, b.name};
  }

  lemma Reads3(a: Slot, b: Slot, c: Slot)
    requires Named([a, b, c])
    ensures var fs := Build([a, b, c]);
      && Get(fs, a.name) == a.value && Get(fs, b.name) == b.value && Get(fs, c.name) == c.value
      && Known(fs, {a.name, b.name, c.name})
  {
    var slots := [a, b, c];
    BuildReads(slots);
    assert slots[0] == a && slots[1] == b && slots[2] == c;
    assert NamesOf(slots) == {a.name, b.name, c.name};
  }

  lemma Reads4(a: Slot, b: Slot, c: Slot, d: Slot)
    requires Named([a, b, c, d])
    ensures var fs := Build([a, b, c, d]);
      && Get(fs, a.name) == a.value && Get(fs, b.name) == b.value && Get(fs, c.name) == c.value
      && Get(fs, d.name) == d.value
      && Known(fs, {a.name, b.name, c.name, d.name})
  {
    var slots := [a, b, c, d];
    BuildReads(slots);
    assert slots[0] == a && slots[1] == b && slots[2] == c && slots[3] == d;
    assert NamesOf(slots) == {a.name, b.name, c.name, d.name};
  }

  lemma Reads6(a: Slot, b: Slot, c: Slot, d: Slot, e: Slot, f: Slot)
    requires Named([a, b, c, d, e, f])
    ensures var fs := Build([a, b, c, d, e, f]);
      && Get(fs, a.name) == a.value && Get(fs, b.name) == b.value && Get(fs, c.name) == c.value
      && Get(fs, d.name) == d.value && Get(fs, e.name) == e.value && Get(fs, f.name) == f.value
      && Known(fs, {a.name, b.name, c.name, d.name, e.name, f.name})
  {
    var slots := [a, b, c, d, e, f];
    BuildReads(slots);
    assert slots[0] == a && slots[1] == b && slots[2] == c && slots[3] == d && slots[4] == e && slots[5] == f;
    assert NamesOf(slots) == {a.name, b.name, c.name, d.name, e.name, f.name};
  }

  lemma OrderTrip(k: OrderKey)
    requires ValidOrder(k)
    ensures ParseOrder(PrintOrder(k)) == Some(k)
  {
    Reads3(Slot("field", Some(Str(k.field))), Slot("compare", PrintStr(k.compare)), Slot("dir", PrintStr(k.dir)));
  }

  lemma OrdersTrip(ks: seq<OrderKey>)
    requires forall i :: 0 <= i < |ks| ==> ValidOrder(ks[i])
    ensures ParseOrders(ListOf(PrintOrders(ks))) == Some(ks)
  {
    var items := PrintOrders(ks);
    forall i | 0 <= i < |ks| ensures ParseOrder(items[i]) == Some(ks[i]) {
      OrderTrip(ks[i]);
    }
    var parsed := AllOf(seq(|items|, i requires 0 <= i < |items| => ParseOrder(items[i])));
    assert parsed.Some? && parsed.value == ks;
  }

  lemma ContentTrip(c: Option<Content>)
    ensures ParseContent(if c.None? then None else Some(PrintContent(c.value))) == Some(c)
  {
    if c.Some? {
      Reads2(Slot("max", Some(Num(c.value.max as real))), Slot("overflow", Some(Str(c.value.overflow))));
    }
  }

  lemma OutputParsed(fs: seq<Field>, o: Output, content: Option<Json>)
    requires Known(fs, {"shape", "detail", "form", "content", "encoding"})
    requires Get(fs, "shape") == PrintStr(o.shape) && Get(fs, "detail") == PrintStr(o.detail)
    requires Get(fs, "form") == PrintStr(o.form) && Get(fs, "encoding") == PrintStr(o.encoding)
    requires Get(fs, "content") == content && ParseContent(content) == Some(o.content)
    requires OneOf(o.encoding, {"", "json", "cbor"})
    ensures ParseOutput(Some(Obj(fs))) == Some(o)
  {
    StrTrip(o.shape);
    StrTrip(o.detail);
    StrTrip(o.form);
    StrTrip(o.encoding);
  }

  lemma OutputTrip(o: Output)
    requires ValidOutput(o)
    ensures ParseOutput(PrintOutput(o)) == Some(o.(encoding := Wire(o.encoding)))
  {
    if PrintOutput(o).Some? {
      var content := if o.content.None? then None else Some(PrintContent(o.content.value));
      ContentTrip(o.content);
      Reads5(Slot("shape", PrintStr(o.shape)), Slot("detail", PrintStr(o.detail)), Slot("form", PrintStr(o.form)),
        Slot("content", content), Slot("encoding", PrintStr(Wire(o.encoding))));
      OutputParsed(PrintOutput(o).value.fields, o.(encoding := Wire(o.encoding)), content);
    }
  }

  lemma LimitParsed(sp: Spelling, fs: seq<Field>, results: int, time: int)
    requires Spells(sp) && time >= 0 && Known(fs, {"results", "time"})
    requires Get(fs, "results") == PrintInt(results)
    requires Get(fs, "time") == if time == 0 then None else Some(Str(sp.showTime(time)))
    ensures ParseLimit(sp, Some(Obj(fs))) == Some((results, time))
  {
  }

  lemma LimitTrip(sp: Spelling, results: int, time: int)
    requires Spells(sp) && time >= 0
    ensures ParseLimit(sp, PrintLimit(sp, results, time)) == Some((results, time))
  {
    var spelled := if time == 0 then None else Some(Str(sp.showTime(time)));
    var slots := [Slot("results", PrintInt(results)), Slot("time", spelled)];
    Reads2(slots[0], slots[1]);
    LimitParsed(sp, Build(slots), results, time);
  }

  /** The two failure levels of a report are what a Go caller may set and the wire may not. */
  predicate WireReport(report: string) {
    report != "error" && report != "warn"
  }

  lemma ExecutionParsed(sp: Spelling, fs: seq<Field>, layer: string, report: string)
    requires Known(fs, {"layer", "report"}) && (layer != "" ==> !sp.blank(layer))
    requires Get(fs, "layer") == PrintStr(layer) && Get(fs, "report") == PrintStr(report)
    requires OneOf(report, {"", "error", "warn", "info", "debug", "trace"})
    ensures ParseExecution(sp, Some(Obj(fs))) == if WireReport(report) then Some((layer, report)) else None
  {
    StrTrip(layer);
    StrTrip(report);
  }

  lemma ExecutionTrip(sp: Spelling, layer: string, report: string)
    requires layer != "" ==> !sp.blank(layer)
    requires OneOf(report, {"", "error", "warn", "info", "debug", "trace"})
    ensures ParseExecution(sp, PrintExecution(layer, report)) ==
      if WireReport(report) then Some((layer, report)) else None
  {
    if PrintExecution(layer, report).Some? {
      Reads2(Slot("layer", PrintStr(layer)), Slot("report", PrintStr(report)));
      ExecutionParsed(sp, PrintExecution(layer, report).value.fields, layer, report);
    }
  }

  lemma AnchorsTrip(sp: Spelling, ids: seq<Id>)
    requires Spells(sp) && forall i, j :: 0 <= i < j < |ids| ==> ids[i] != ids[j]
    ensures ParseAnchors(sp, PrintAnchors(sp, ids)) == Some(Stated(ids))
  {
    if ids != [] {
      var spelled := ShowIds(sp, ids);
      forall i, j | 0 <= i < j < |ids| ensures spelled[i] != spelled[j] {
        assert sp.readId(spelled[i]) == Some(ids[i]) && sp.readId(spelled[j]) == Some(ids[j]);
      }
      var read := ReadIds(sp, spelled);
      assert read.Some? && read.value == ids;
      if |ids| == 1 {
        assert spelled == [sp.showId(ids[0])];
      } else {
        StrsTrip(spelled);
        assert StrItems(spelled) != [];
        assert PrintAnchors(sp, ids) == Some(Arr(StrItems(spelled)));
      }
    } else {
      assert Stated(ids) == [];
    }
  }

  lemma PathTrip(path: seq<PathStep>)
    ensures ParsePath(Some(Arr(PrintSteps(path)))) == Some(Some(path))
  {
    var items := PrintSteps(path);
    forall i | 0 <= i < |items| ensures ParseStep(items[i]) == Some(path[i]) {
      StepTrip(path[i]);
    }
    var parsed := AllOf(seq(|items|, i requires 0 <= i < |items| => ParseStep(items[i])));
    assert parsed.Some? && parsed.value == path;
  }

  lemma IdTrip(sp: Spelling, id: Option<Id>)
    requires Spells(sp)
    ensures ParseId(sp, if id.None? then None else Some(Str(sp.showId(id.value)))) == Some(id)
  {
  }

  lemma SelectParsed(sp: Spelling, s: Select, fs: seq<Field>, claim: Option<Json>, path: Option<Json>)
    requires Spells(sp) && Known(fs, {"branch", "head", "claim", "path"})
    requires Get(fs, "branch") == Some(Str(s.branch))
    requires Get(fs, "head") == if s.head.None? then None else Some(Str(sp.showId(s.head.value)))
    requires Get(fs, "claim") == claim && ParseAnchors(sp, claim) == Some(s.claim)
    requires Get(fs, "path") == path && ParsePath(path) == Some(s.path)
    ensures ParseSelect(sp, Obj(fs)) == Some(s)
  {
    IdTrip(sp, s.head);
  }

  lemma SelectReads(sp: Spelling, s: Select)
    ensures var fs := PrintSelect(sp, s).fields;
      && Get(fs, "branch") == Some(Str(s.branch))
      && Get(fs, "head") == (if s.head.None? then None else Some(Str(sp.showId(s.head.value))))
      && Get(fs, "claim") == PrintAnchors(sp, Anchors(s.claim))
      && Get(fs, "path") == (if s.path.None? then None else Some(Arr(PrintSteps(s.path.value))))
      && Known(fs, {"branch", "head", "claim", "path"})
  {
    Reads4(Slot("branch", Some(Str(s.branch))),
      Slot("head", if s.head.None? then None else Some(Str(sp.showId(s.head.value)))),
      Slot("claim", PrintAnchors(sp, Anchors(s.claim))),
      Slot("path", if s.path.None? then None else Some(Arr(PrintSteps(s.path.value)))));
  }

  lemma SelectTrip(sp: Spelling, s: Select)
    requires Spells(sp)
    ensures ParseSelect(sp, PrintSelect(sp, s)) == Some(s.(claim := Stated(Anchors(s.claim))))
  {
    var fs := PrintSelect(sp, s).fields;
    SelectReads(sp, s);
    AnchorsTrip(sp, Anchors(s.claim));
    if s.path.Some? {
      PathTrip(s.path.value);
    }
    SelectParsed(sp, s.(claim := Stated(Anchors(s.claim))), fs, Get(fs, "claim"), Get(fs, "path"));
  }

  /** A query as the wire can say it: each anchor once, and no native encoding. */
  function Normal(q: Query): Query {
    q.(select := q.select.(claim := Stated(Anchors(q.select.claim))),
      output := q.output.(encoding := Wire(q.output.encoding)))
  }

  lemma NormalStaysValid(sp: Spelling, q: Query)
    requires ValidQuery(sp, q)
    ensures ValidQuery(sp, Normal(q))
  {
  }

  lemma QueryParsed(
    sp: Spelling, q: Query, fs: seq<Field>, sel: Json, wh: Option<Json>, exec: Option<(string, string)>)
    requires Known(fs, {"select", "where", "output", "order", "limit", "execution"})
    requires Get(fs, "select") == Some(sel) && ParseSelect(sp, sel) == Some(q.select)
    requires Get(fs, "where") == wh && wh.Some? == q.where.Some? && (wh.Some? ==> ParseWhere(wh.value) == q.where)
    requires ParseOutput(Get(fs, "output")) == Some(q.output) && ParseOrders(Get(fs, "order")) == Some(q.order)
    requires ParseLimit(sp, Get(fs, "limit")) == Some((q.results, q.time))
    requires ParseExecution(sp, Get(fs, "execution")) == exec && (exec.Some? ==> exec.value == (q.layer, q.report))
    ensures ParseQuery(sp, Obj(fs)) == if exec.Some? then Some(q) else None
  {
  }

  lemma QueryReads(sp: Spelling, q: Query)
    ensures var fs := PrintQuery(sp, q).fields;
      && Get(fs, "select") == Some(PrintSelect(sp, q.select))
      && Get(fs, "where") == (if q.where.None? then None else Some(PrintWhere(q.where.value)))
      && Get(fs, "output") == PrintOutput(q.output) && Get(fs, "order") == ListOf(PrintOrders(q.order))
      && Get(fs, "limit") == PrintLimit(sp, q.results, q.time)
      && Get(fs, "execution") == PrintExecution(q.layer, q.report)
      && Known(fs, {"select", "where", "output", "order", "limit", "execution"})
  {
    Reads6(Slot("select", Some(PrintSelect(sp, q.select))),
      Slot("where", if q.where.None? then None else Some(PrintWhere(q.where.value))),
      Slot("output", PrintOutput(q.output)), Slot("order", ListOf(PrintOrders(q.order))),
      Slot("limit", PrintLimit(sp, q.results, q.time)), Slot("execution", PrintExecution(q.layer, q.report)));
  }

  lemma ParseTrip(sp: Spelling, q: Query)
    requires Spells(sp) && ValidQuery(sp, q)
    ensures ParseQuery(sp, PrintQuery(sp, q)) == if WireReport(q.report) then Some(Normal(q)) else None
  {
    QueryReads(sp, q);
    SelectTrip(sp, q.select);
    OutputTrip(q.output);
    OrdersTrip(q.order);
    LimitTrip(sp, q.results, q.time);
    ExecutionTrip(sp, q.layer, q.report);
    if q.where.Some? {
      WhereTrip(sp, q.where.value);
    }
    QueryParsed(sp, Normal(q), PrintQuery(sp, q).fields, PrintSelect(sp, q.select),
      if q.where.None? then None else Some(PrintWhere(q.where.value)),
      if WireReport(q.report) then Some((q.layer, q.report)) else None);
  }

  /** DecodeQuery of EncodeQuery is the query in its wire form, for every valid query, unless
      it asks for a report level that is Go's alone, which the wire refuses. */
  lemma QueryTrip(sp: Spelling, q: Query)
    requires Spells(sp) && ValidQuery(sp, q)
    ensures EncodeQuery(sp, q).Some?
    ensures DecodeQuery(sp, EncodeQuery(sp, q).value) == if WireReport(q.report) then Some(Normal(q)) else None
  {
    ParseTrip(sp, q);
    NormalStaysValid(sp, q);
  }

  ghost predicate NoRepeat(ids: seq<Option<Id>>) {
    forall i, j :: 0 <= i < j < |ids| ==> ids[i] != ids[j]
  }

  lemma {:induction false} AnchorsStand(ids: seq<Option<Id>>)
    requires NoRepeat(ids) && forall i :: 0 <= i < |ids| ==> ids[i].Some?
    ensures Stated(Anchors(ids)) == ids
  {
    if ids != [] {
      var n := |ids| - 1;
      AnchorsStand(ids[..n]);
      var r := Anchors(ids[..n]);
      forall i | 0 <= i < n ensures r[i] == ids[i].value && r[i] != ids[n].value {
        assert Stated(r)[i] == ids[..n][i] && ids[i] != ids[n];
      }
      assert |r| == n;
      assert Anchors(ids) == r + [ids[n].value];
    }
  }

  lemma AnchorsKeep(ids: seq<Option<Id>>)
    requires forall i :: 0 <= i < |ids| ==> ids[i].Some?
    ensures Stated(Anchors(ids)) == ids <==> NoRepeat(ids)
  {
    var r := Anchors(ids);
    assert NoRepeat(Stated(r));
    if NoRepeat(ids) {
      AnchorsStand(ids);
    }
  }

  lemma DecodedSelect(sp: Spelling, j: Json)
    requires ParseSelect(sp, j).Some?
    ensures forall i :: 0 <= i < |ParseSelect(sp, j).value.claim| ==> ParseSelect(sp, j).value.claim[i].Some?
  {
  }

  lemma DecodedOutput(j: Option<Json>)
    requires ParseOutput(j).Some?
    ensures Wire(ParseOutput(j).value.encoding) == ParseOutput(j).value.encoding
  {
  }

  lemma DecodedExecution(sp: Spelling, j: Option<Json>)
    requires ParseExecution(sp, j).Some?
    ensures WireReport(ParseExecution(sp, j).value.1)
  {
  }

  lemma DecodedParts(sp: Spelling, j: Json)
    requires ParseQuery(sp, j).Some?
    ensures j.Obj?
    ensures var q := ParseQuery(sp, j).value;
      && ParseOutput(Get(j.fields, "output")) == Some(q.output)
      && ParseExecution(sp, Get(j.fields, "execution")) == Some((q.layer, q.report))
      && (Get(j.fields, "select").None? ==> q.select.claim == [])
      && (Get(j.fields, "select").Some? ==> ParseSelect(sp, Get(j.fields, "select").value) == Some(q.select))
  {
  }

  lemma DecodedForm(sp: Spelling, j: Json)
    requires ParseQuery(sp, j).Some?
    ensures var q := ParseQuery(sp, j).value;
      && WireReport(q.report) && Wire(q.output.encoding) == q.output.encoding
      && forall i :: 0 <= i < |q.select.claim| ==> q.select.claim[i].Some?
  {
    DecodedParts(sp, j);
    DecodedOutput(Get(j.fields, "output"));
    DecodedExecution(sp, Get(j.fields, "execution"));
    if Get(j.fields, "select").Some? {
      DecodedSelect(sp, Get(j.fields, "select").value);
    }
  }

  /** What a decode returns it returns again when printed and read back, an anchor it named
      twice under two spellings named once. */
  lemma DecodedTrip(sp: Spelling, j: Json)
    requires Spells(sp) && DecodeQuery(sp, j).Some?
    ensures var q := DecodeQuery(sp, j).value;
      && DecodeQuery(sp, EncodeQuery(sp, q).value) == Some(Normal(q))
      && (Normal(q) == q <==> NoRepeat(q.select.claim))
  {
    var q := DecodeQuery(sp, j).value;
    DecodedForm(sp, j);
    QueryTrip(sp, q);
    AnchorsKeep(q.select.claim);
  }
}
