/** Printing a `ModelAllocation` and parsing its specification: `__str__`, `from_str` and the grammar of
areal/api/alloc_mode.py for a single component. */
module AllocationText {
  import opened Wrappers
  import opened Sequences
  import opened Decimal
  import opened Strategy
  import opened Hybrid

  datatype Backend = Sglang | Vllm | Fsdp | Megatron | Archon

  datatype Allocation = Allocation(backend: Backend, name: Option<string>, parallel: ParallelStrategy)

  predicate Infers(b: Backend) { b.Sglang? || b.Vllm? }

  /** The check of the constructor of `ModelAllocation`. */
  predicate Supported(b: Backend, s: ParallelStrategy) { b.Fsdp? ==> s.pp <= 1 && s.ep <= 1 }

  /** Allocations with positive sizes that the constructors accept. */
  predicate Valid(a: Allocation) {
    Positive(a.parallel) && Constructible(a.parallel) && Supported(a.backend, a.parallel)
  }

  // ---------------------------------------------------------------- printing

  function BackendName(b: Backend): string {
    match b
    case Sglang => "sglang"
    case Vllm => "vllm"
    case Fsdp => "fsdp"
    case Megatron => "megatron"
    case Archon => "archon"
  }

  /** A dimension is printed unless its size is 1. */
  function Part(kind: char, size: nat): seq<Dim> { if size != 1 then [Dim(kind, size)] else [] }

  function Parts(s: ParallelStrategy): seq<Dim> {
    Part('d', s.dp) + Part('p', s.pp) + Part('t', s.tp) + Part('c', s.cp) + Part('e', s.ep)
  }

  function Dims(s: ParallelStrategy): seq<Dim> { if Parts(s) == [] then [Dim('d', s.dp)] else Parts(s) }

  function Render(dims: seq<Dim>): string {
    if dims == [] then "" else [dims[0].kind] + (Numeral(dims[0].size) + Render(dims[1..]))
  }

  /** `str(allocation)`; an empty name counts as none. */
  function ToStr(a: Allocation): string {
    BackendName(a.backend) + if a.name.Some? && a.name.value != "" then Named(a) else ":" + Render(Dims(a.parallel))
  }

  function Named(a: Allocation): string
    requires a.name.Some?
  {
    "(" + a.name.value + "):" + Render(Dims(a.parallel))
  }

  // ---------------------------------------------------------------- parsing

  /** One or more dimensions of these kinds; a size does not start with 0. */
  function ParseDims(s: string, kinds: set<char>): (r: Option<seq<Dim>>)
    ensures r.Some? ==> r.value != [] && Sized(r.value) && forall i :: 0 <= i < |r.value| ==> r.value[i].kind in kinds
    decreases |s|
  {
    if s == "" || s[0] !in kinds then None
    else
      var k := DigitPrefix(s[1..]);
      var digits, rest := s[1..][..k], s[1..][k..];
      if k == 0 || digits[0] == '0' then None
      else
        FirstDigitCounts(digits);
        var d := Dim(s[0], Value(digits));
        if rest == "" then Some([d])
        else
          var ds := ParseDims(rest, kinds);
          if ds.None? then None else Some([d] + ds.value)
  }

  lemma {:induction false} FirstDigitCounts(digits: string)
    requires digits != [] && AllDigits(digits) && digits[0] != '0'
    ensures Value(digits) >= 1
  {
    if |digits| == 1 {
      assert IsDigit(digits[0]) && DigitValue(digits[0]) >= 1;
    } else {
      FirstDigitCounts(digits[..|digits| - 1]);
    }
  }

  /** `[a-zA-Z_][a-zA-Z0-9_]*` */
  predicate IsName(s: string) {
    s != "" && !IsDigit(s[0])
    && forall i :: 0 <= i < |s| ==> 'a' <= s[i] <= 'z' || 'A' <= s[i] <= 'Z' || s[i] == '_' || IsDigit(s[i])
  }

  predicate StartsWith(s: string, prefix: string) { prefix <= s }

  /** What follows `prefix` in `s`. */
  function After(s: string, prefix: string): Option<string> {
    if StartsWith(s, prefix) then Some(s[|prefix|..]) else None
  }

  /** The backend at the start of a specification, and the rest. */
  function SplitBackend(s: string): Option<(Backend, string)> {
    if StartsWith(s, "sglang") then Some((Sglang, s[6..]))
    else if StartsWith(s, "vllm") then Some((Vllm, s[4..]))
    else if StartsWith(s, "fsdp") then Some((Fsdp, s[4..]))
    else if StartsWith(s, "megatron") then Some((Megatron, s[8..]))
    else if StartsWith(s, "archon") then Some((Archon, s[6..]))
    else None
  }

  function Kinds(b: Backend): set<char> { if Infers(b) then {'d', 't', 'p'} else {'p', 'd', 't', 'c', 'e'} }

  /** `attn:...|ffn:...`; either parenthesis may be missing. */
  function ParseHybrid(s: string): Result<ParallelStrategy> {
    var body := if StartsWith(s, "(") then s[1..] else s;
    var open := if body != "" && body[|body| - 1] == ')' then body[..|body| - 1] else body;
    var k := IndexOf(open, '|');
    if k == |open| then Err(Syntax)
    else
      var left, right := After(open[..k], "attn:"), After(open[k + 1..], "ffn:");
      if left.None? || right.None? then Err(Syntax)
      else
        var attn, ffn := ParseDims(left.value, {'c', 'd', 't', 'p'}), ParseDims(right.value, {'d', 'e', 't', 'p'});
        if attn.None? || ffn.None? then Err(Syntax) else HybridStrategy(attn.value, ffn.value)
  }

  /** The strategy after the colon. */
  function ParseStrategy(b: Backend, s: string): Result<ParallelStrategy> {
    if !Infers(b) && s != "" && (s[0] == '(' || s[0] == 'a') then ParseHybrid(s)
    else
      var dims := ParseDims(s, Kinds(b));
      if dims.None? then Err(Syntax) else Ok(Plain(dims.value))
  }

  function Build(b: Backend, name: Option<string>, s: Result<ParallelStrategy>): Result<Allocation> {
    if s.Err? then Err(s.error)
    else if !Constructible(s.value) then Err(NotDivisible)
    else if !Supported(b, s.value) then Err(NotForFsdp)
    else Ok(Allocation(b, name, s.value))
  }

  /** What may follow a backend. */
  function ParseBody(b: Backend, rest: string): Result<Allocation> {
    if StartsWith(rest, ":") then Build(b, None, ParseStrategy(b, rest[1..]))
    else if StartsWith(rest, "[") then
      var k := IndexOf(rest, ']');
      if k == |rest| || !IsName(rest[1..k]) || !StartsWith(rest[k + 1..], ":") then Err(Syntax)
      else
        var dims := ParseDims(rest[k + 2..], Kinds(b));
        if dims.None? then Err(Syntax) else Build(b, Some(rest[1..k]), Ok(Plain(dims.value)))
    else Err(Syntax)
  }

  /** `from_str` without a name of its own. */
  function FromStr(s: string): Result<Allocation> {
    if '+' in s then Err(MultiComponent)
    else
      var head := SplitBackend(s);
      if head.None? then Err(Syntax) else ParseBody(head.value.0, head.value.1)
  }

  // ---------------------------------------------------------------- round trip

  predicate Lettered(dims: seq<Dim>) { forall i :: 0 <= i < |dims| ==> dims[i].kind in {'d', 'p', 't', 'c', 'e'} }

  /** The first dimension of a text is read back, whatever follows. */
  lemma FirstReadBack(d: Dim, rest: string, kinds: set<char>)
    requires d.size >= 1 && (rest == "" || !IsDigit(rest[0]))
    ensures ParseDims([d.kind] + (Numeral(d.size) + rest), kinds) ==
            if d.kind !in kinds then None
            else if rest == "" then Some([d])
            else if ParseDims(rest, kinds).None? then None
            else Some([d] + ParseDims(rest, kinds).value)
  {
    var s, text := [d.kind] + (Numeral(d.size) + rest), Numeral(d.size) + rest;
    NumeralEnds(d.size, rest);
    ParseNumeral(d.size);
    var k := |Numeral(d.size)|;
    assert s[1..] == text && text[..k] == Numeral(d.size) && text[k..] == rest;
  }

  /** Printed dimensions are read back, if the grammar knows their kinds. */
  lemma {:induction false} DimsReadBack(dims: seq<Dim>, kinds: set<char>)
    requires dims != [] && Sized(dims) && Lettered(dims)
    ensures ParseDims(Render(dims), kinds) ==
            if forall i :: 0 <= i < |dims| ==> dims[i].kind in kinds then Some(dims) else None
    decreases |dims|
  {
    var d, more := dims[0], dims[1..];
    assert dims == [d] + more;
    if more == [] {
      assert Render(more) == "" && (forall i :: 0 <= i < |dims| ==> dims[i] == d) && dims == [d];
      FirstReadBack(d, "", kinds);
    } else {
      DimsReadBack(more, kinds);
      assert Render(more)[0] == more[0].kind == dims[1].kind;
      FirstReadBack(d, Render(more), kinds);
      assert forall i :: 1 <= i < |dims| ==> dims[i] == more[i - 1];
    }
  }

  lemma LastOfPart(kind: char, size: nat, k: char)
    ensures Last(Part(kind, size), k) == if kind == k && size != 1 then Some(size) else None
  {
    LastOfOne(Dim(kind, size), k);
  }

  /** The printed dimensions determine all sizes but the experts' tensor size. */
  lemma DimsAreTheSizes(s: ParallelStrategy)
    ensures Plain(Dims(s)) == s.(etp := 1)
    ensures Positive(s) ==> Sized(Dims(s))
    ensures Lettered(Dims(s)) && Dims(s) != []
  {
    forall k ensures k == 'd' ==> Size(Dims(s), k) == s.dp
             ensures k == 'p' ==> Size(Dims(s), k) == s.pp
             ensures k == 't' ==> Size(Dims(s), k) == s.tp
             ensures k == 'c' ==> Size(Dims(s), k) == s.cp
             ensures k == 'e' ==> Size(Dims(s), k) == s.ep
    {
      LastOfPart('d', s.dp, k);
      LastOfPart('p', s.pp, k);
      LastOfPart('t', s.tp, k);
      LastOfPart('c', s.cp, k);
      LastOfPart('e', s.ep, k);
      var d, p := Part('d', s.dp), Part('p', s.pp);
      LastOfAppend(d, p, k);
      LastOfAppend(d + p, Part('t', s.tp), k);
      LastOfAppend(d + p + Part('t', s.tp), Part('c', s.cp), k);
      LastOfAppend(d + p + Part('t', s.tp) + Part('c', s.cp), Part('e', s.ep), k);
      LastOfOne(Dim('d', s.dp), k);
    }
  }

  lemma HeadReadBack(b: Backend, rest: string)
    requires rest != ""
    ensures SplitBackend(BackendName(b) + rest) == Some((b, rest))
  {
    var s, name := BackendName(b) + rest, BackendName(b);
    assert s[..|name|] == name && s[|name|..] == rest;
    assert s[0] == name[0];
  }

  /** Printed dimensions consist of letters and digits. */
  lemma {:induction false} NoneOf(dims: seq<Dim>, c: char)
    requires Lettered(dims) && c !in {'d', 'p', 't', 'c', 'e'} && !IsDigit(c)
    ensures c !in Render(dims)
  {
    if dims == [] {
    } else {
      assert Lettered(dims[1..]);
      NoneOf(dims[1..], c);
      ParseNumeral(dims[0].size);
      assert dims[0].kind != c;
    }
  }

  /** A name is printed in parentheses, which the grammar does not accept there. */
  lemma NamesAreRefused(a: Allocation)
    requires a.name.Some? && a.name.value != ""
    ensures FromStr(ToStr(a)).Err?
  {
    HeadReadBack(a.backend, Named(a));
    assert Named(a)[0] == '(';
  }

  /** What follows the colon decides. */
  lemma ColonFollows(b: Backend, text: string)
    requires '+' !in text
    ensures FromStr(BackendName(b) + (":" + text)) == Build(b, None, ParseStrategy(b, text))
  {
    assert '+' !in BackendName(b) && '+' !in ":" + text;
    HeadReadBack(b, ":" + text);
    assert (":" + text)[..1] == ":" && (":" + text)[1..] == text;
  }

  lemma PlainStrategyFollows(b: Backend, dims: seq<Dim>)
    requires dims != [] && Sized(dims) && Lettered(dims)
    ensures ParseStrategy(b, Render(dims)) ==
            if forall i :: 0 <= i < |dims| ==> dims[i].kind in Kinds(b) then Ok(Plain(dims)) else Err(Syntax)
  {
    DimsReadBack(dims, Kinds(b));
    StartsWithLetter(dims);
    ReadsAsDims(b, Render(dims));
  }

  lemma StartsWithLetter(dims: seq<Dim>)
    requires dims != [] && Lettered(dims)
    ensures Render(dims) != "" && Render(dims)[0] !in {'(', 'a'}
  {
    assert Render(dims)[0] == dims[0].kind;
  }

  lemma ReadsAsDims(b: Backend, s: string)
    requires s != "" && s[0] !in {'(', 'a'}
    ensures ParseStrategy(b, s) ==
            if ParseDims(s, Kinds(b)).None? then Err(Syntax) else Ok(Plain(ParseDims(s, Kinds(b)).value))
  {
  }

  /** What parsing makes of an allocation printed without a name. */
  lemma UnnamedIsParsed(a: Allocation)
    requires Valid(a) && (a.name.None? || a.name.value == "")
    ensures FromStr(ToStr(a)) ==
            if Infers(a.backend) ==> a.parallel.cp == 1 && a.parallel.ep == 1
            then Build(a.backend, None, Ok(a.parallel.(etp := 1)))
            else Err(Syntax)
  {
    var dims := Dims(a.parallel);
    DimsAreTheSizes(a.parallel);
    NoneOf(dims, '+');
    ColonFollows(a.backend, Render(dims));
    PlainStrategyFollows(a.backend, dims);
    KindsPrinted(a.backend, a.parallel);
  }

  /** The kinds that an inference backend cannot read are printed exactly when those sizes are not 1. */
  lemma KindsPrinted(b: Backend, s: ParallelStrategy)
    ensures var dims := Dims(s);
            (forall i :: 0 <= i < |dims| ==> dims[i].kind in Kinds(b)) <==> (Infers(b) ==> s.cp == 1 && s.ep == 1)
  {
    var dims := Dims(s);
    var front := Part('d', s.dp) + Part('p', s.pp) + Part('t', s.tp);
    assert forall i :: 0 <= i < |front| ==> front[i].kind in {'d', 'p', 't'};
    if s.cp != 1 {
      assert dims[|front|].kind == 'c';
    } else if s.ep != 1 {
      assert dims[|front|].kind == 'e';
    } else {
      assert Parts(s) == front;
    }
  }

  /** Parsing what was printed gives the allocation back exactly when it has no name, its expert tensor size
  is 1 and, for an inference backend, so are its context and expert sizes. */
  lemma PrintThenParse(a: Allocation)
    requires Valid(a)
    ensures FromStr(ToStr(a)) == Ok(a) <==>
            a.name.None? && a.parallel.etp == 1 && (Infers(a.backend) ==> a.parallel.cp == 1 && a.parallel.ep == 1)
  {
    if a.name.Some? && a.name.value != "" {
      NamesAreRefused(a);
    } else {
      UnnamedIsParsed(a);
    }
  }

  lemma {:induction false} LastAbsent(dims: seq<Dim>, kind: char)
    requires forall i :: 0 <= i < |dims| ==> dims[i].kind != kind
    ensures Last(dims, kind).None?
  {
    if dims == [] {
    } else {
      LastAbsent(dims[..|dims| - 1], kind);
    }
  }

  lemma ParsedPlain(b: Backend, dims: seq<Dim>)
    requires Sized(dims) && forall i :: 0 <= i < |dims| ==> dims[i].kind in Kinds(b)
    ensures var s := Plain(dims);
            Positive(s) && s.etp == 1 && (Infers(b) ==> s.cp == 1 && s.ep == 1)
  {
    if Infers(b) {
      LastAbsent(dims, 'c');
      LastAbsent(dims, 'e');
    }
  }

  lemma ParsedStrategy(b: Backend, s: string)
    ensures var r := ParseStrategy(b, s);
            r.Ok? ==> Positive(r.value) && (Infers(b) ==> r.value.cp == 1 && r.value.ep == 1)
  {
    var dims := ParseDims(s, Kinds(b));
    if dims.Some? {
      ParsedPlain(b, dims.value);
    }
  }

  /** Whatever is accepted satisfies the constructors, and printing it gives a normal form of its text, unless
  it is named or comes from a hybrid specification with expert tensor parallelism. */
  lemma ParseThenPrint(s: string)
    requires FromStr(s).Ok?
    ensures var a := FromStr(s).value;
            Valid(a) && (FromStr(ToStr(a)) == Ok(a) <==> a.name.None? && a.parallel.etp == 1)
  {
    var a, b, rest := FromStr(s).value, SplitBackend(s).value.0, SplitBackend(s).value.1;
    if StartsWith(rest, ":") {
      ParsedStrategy(b, rest[1..]);
    } else {
      ParsedPlain(b, ParseDims(rest[IndexOf(rest, ']') + 2..], Kinds(b)).value);
    }
    PrintThenParse(a);
  }

  // ---------------------------------------------------------------- hybrid specifications

  predicate Within(dims: seq<Dim>, kinds: set<char>) { forall i :: 0 <= i < |dims| ==> dims[i].kind in kinds }

  lemma {:induction false} FoundAt(front: string, c: char, rest: string)
    requires c !in front
    ensures IndexOf(front + [c] + rest, c) == |front|
  {
    var s := front + [c] + rest;
    if front == "" {
      assert s[0] == c;
    } else {
      assert s[1..] == front[1..] + [c] + rest;
      FoundAt(front[1..], c, rest);
    }
  }

  lemma TakeApart(left: string, right: string)
    requires '|' !in left && right != "" && right[|right| - 1] != ')'
    ensures ParseHybrid("(" + ((left + "|" + right) + ")")) ==
            if After(left, "attn:").None? || After(right, "ffn:").None? then Err(Syntax)
            else
              var attn := ParseDims(After(left, "attn:").value, {'c', 'd', 't', 'p'});
              var ffn := ParseDims(After(right, "ffn:").value, {'d', 'e', 't', 'p'});
              if attn.None? || ffn.None? then Err(Syntax) else HybridStrategy(attn.value, ffn.value)
  {
    var open := left + "|" + right;
    var s := "(" + (open + ")");
    var body := open + ")";
    assert StartsWith(s, "(") && s[1..] == body && body[..|body| - 1] == open;
    FoundAt(left, '|', right);
    assert open[..|left|] == left && open[|left| + 1..] == right;
  }

  function Section(keyword: string, dims: seq<Dim>): string { keyword + Render(dims) }

  function HybridText(attn: seq<Dim>, ffn: seq<Dim>): string {
    "(" + ((Section("attn:", attn) + "|" + Section("ffn:", ffn)) + ")")
  }

  lemma SectionFollows(keyword: string, dims: seq<Dim>, c: char)
    requires Lettered(dims) && dims != [] && c !in keyword && c !in {'d', 'p', 't', 'c', 'e'} && !IsDigit(c)
    ensures var s := Section(keyword, dims);
            After(s, keyword) == Some(Render(dims)) && c !in s && s != "" && s[|s| - 1] != c
  {
    NoneOf(dims, c);
  }

  lemma HybridBody(attn: seq<Dim>, ffn: seq<Dim>)
    requires attn != [] && ffn != [] && Sized(attn) && Sized(ffn)
    requires Within(attn, {'c', 'd', 't', 'p'}) && Within(ffn, {'d', 'e', 't', 'p'})
    ensures ParseHybrid(HybridText(attn, ffn)) == HybridStrategy(attn, ffn)
  {
    SectionFollows("attn:", attn, '|');
    SectionFollows("ffn:", ffn, ')');
    TakeApart(Section("attn:", attn), Section("ffn:", ffn));
    DimsReadBack(attn, {'c', 'd', 't', 'p'});
    DimsReadBack(ffn, {'d', 'e', 't', 'p'});
  }

  lemma NoPlus(attn: seq<Dim>, ffn: seq<Dim>)
    requires Lettered(attn) && Lettered(ffn) && attn != [] && ffn != []
    ensures '+' !in HybridText(attn, ffn)
  {
    SectionFollows("attn:", attn, '+');
    SectionFollows("ffn:", ffn, '+');
  }

  /** A hybrid specification in parentheses is read as its two lists of dimensions. */
  lemma HybridIsRead(b: Backend, attn: seq<Dim>, ffn: seq<Dim>)
    requires !Infers(b) && attn != [] && ffn != [] && Sized(attn) && Sized(ffn)
    requires Within(attn, {'c', 'd', 't', 'p'}) && Within(ffn, {'d', 'e', 't', 'p'})
    ensures FromStr(BackendName(b) + (":" + HybridText(attn, ffn))) == Build(b, None, HybridStrategy(attn, ffn))
  {
    var spec := HybridText(attn, ffn);
    NoPlus(attn, ffn);
    HybridBody(attn, ffn);
    assert spec[0] == '(';
    ColonFollows(b, spec);
  }

  /** `megatron:(attn:d2t4|ffn:d2e4)` has a tensor size of 4, a context size of 1 and an expert size of 4. */
  lemma HybridExample()
    ensures FromStr("megatron:(attn:d2t4|ffn:d2e4)")
         == Ok(Allocation(Megatron, None, ParallelStrategy(2, 1, 4, 1, 4, 1)))
  {
    var attn, ffn := [Dim('d', 2), Dim('t', 4)], [Dim('d', 2), Dim('e', 4)];
    ExampleText(attn, ffn);
    ExampleStrategy(attn, ffn);
    HybridIsRead(Megatron, attn, ffn);
  }

  lemma ExampleText(attn: seq<Dim>, ffn: seq<Dim>)
    requires attn == [Dim('d', 2), Dim('t', 4)] && ffn == [Dim('d', 2), Dim('e', 4)]
    ensures BackendName(Megatron) + (":" + HybridText(attn, ffn)) == "megatron:(attn:d2t4|ffn:d2e4)"
  {
    RenderTwo('d', 2, 't', 4);
    RenderTwo('d', 2, 'e', 4);
    assert Section("attn:", attn) == "attn:d2t4" && Section("ffn:", ffn) == "ffn:d2e4";
  }

  lemma RenderTwo(a: char, m: nat, b: char, n: nat)
    requires m < 10 && n < 10
    ensures Render([Dim(a, m), Dim(b, n)]) == [a, Digit(m), b, Digit(n)]
  {
    var last := [Dim(b, n)];
    assert Render(last[1..]) == "";
    assert Render(last) == [b, Digit(n)];
    assert [Dim(a, m), Dim(b, n)][1..] == last;
  }

  lemma ExampleStrategy(attn: seq<Dim>, ffn: seq<Dim>)
    requires attn == [Dim('d', 2), Dim('t', 4)] && ffn == [Dim('d', 2), Dim('e', 4)]
    ensures HybridStrategy(attn, ffn) == Ok(ParallelStrategy(2, 1, 4, 1, 4, 1))
  {
    forall kind ensures Last(attn, kind) == if kind == 't' then Some(4) else if kind == 'd' then Some(2) else None
                ensures Last(ffn, kind) == if kind == 'e' then Some(4) else if kind == 'd' then Some(2) else None
    {
      LastOfTwo(Dim('d', 2), Dim('t', 4), kind);
      LastOfTwo(Dim('d', 2), Dim('e', 4), kind);
    }
    OnlyOneFits(attn, ffn, 2);
  }

  lemma LastOfTwo(a: Dim, b: Dim, kind: char)
    ensures Last([a, b], kind) == if kind == b.kind then Some(b.size) else if kind == a.kind then Some(a.size) else None
  {
    assert [a, b] == [a] + [b];
    LastOfAppend([a], [b], kind);
    LastOfOne(a, kind);
    LastOfOne(b, kind);
  }
}
