// Text formats of the supervisor/worker protocol: printers, parsers and their round trips.
module Wire {
  import opened Collections

  const INT_MIN := -0x8000_0000
  const INT_MAX := 0x7fff_ffff
  const LONG_MIN := -0x8000_0000_0000_0000
  const LONG_MAX := 0x7fff_ffff_ffff_ffff
  const SIZE_LIMIT := 0x1_0000_0000_0000_0000

  // Result of a parse: a value, a refusal by the parser itself, or an exception out of a conversion.
  datatype Outcome<+T> = Ok(value: T) | Rejected | Throws

  // ----- numbers

  predicate IsDigit(c: char) { '0' <= c <= '9' }
  function DigitChar(d: nat): char requires d < 10 { '0' + d as char }
  function DigitValue(c: char): nat { if IsDigit(c) then (c - '0') as nat else 0 }

  function Dec(n: nat): string {
    if n < 10 then [DigitChar(n)] else Dec(n / 10) + [DigitChar(n % 10)]
  }

  function ShowInt(n: int): string { if n < 0 then "-" + Dec(-n) else Dec(n) }

  // The value of the leading run of digits, read from the left.
  function Accumulate(s: string, value: nat): nat
    decreases |s|
  {
    if s == [] || !IsDigit(s[0]) then value else Accumulate(s[1..], value * 10 + DigitValue(s[0]))
  }

  predicate IsSpace(c: char) { c == ' ' || '\t' <= c <= '\r' }

  function SkipSpace(s: string): string {
    if s != [] && IsSpace(s[0]) then SkipSpace(s[1..]) else s
  }

  // The longest run of digits; what follows it is ignored, and no digit at all is an exception.
  function ScanRun(u: string, negative: bool): Outcome<int> {
    if u == [] || !IsDigit(u[0]) then Throws
    else if negative then Ok(-(Accumulate(u, 0) as int)) else Ok(Accumulate(u, 0))
  }

  // Optional blanks, an optional sign, then digits.
  function ScanNumber(s: string): Outcome<int> {
    var t := SkipSpace(s);
    if t != [] && t[0] == '-' then ScanRun(t[1..], true)
    else if t != [] && t[0] == '+' then ScanRun(t[1..], false)
    else ScanRun(t, false)
  }

  function InRange(r: Outcome<int>, lo: int, hi: int): Outcome<int> {
    if r.Ok? && !(lo <= r.value <= hi) then Throws else r
  }

  function Stoi(s: string): Outcome<int> { InRange(ScanNumber(s), INT_MIN, INT_MAX) }
  function Stoll(s: string): Outcome<int> { InRange(ScanNumber(s), LONG_MIN, LONG_MAX) }

  // The unsigned conversion accepts a minus sign and wraps around.
  function Stoull(s: string): Outcome<int> {
    match InRange(ScanNumber(s), 1 - SIZE_LIMIT, SIZE_LIMIT - 1)
    case Ok(v) => Ok(v % SIZE_LIMIT)
    case _ => Throws
  }

  predicate AllDigits(s: string) { forall i :: 0 <= i < |s| ==> IsDigit(s[i]) }

  lemma {:induction false} AccumulateSnoc(s: string, c: char, value: nat)
    requires AllDigits(s) && IsDigit(c)
    ensures Accumulate(s + [c], value) == Accumulate(s, value) * 10 + DigitValue(c)
  {
    if s == [] {
      assert (s + [c])[1..] == [];
    } else {
      assert (s + [c])[1..] == s[1..] + [c];
      AccumulateSnoc(s[1..], c, value * 10 + DigitValue(s[0]));
    }
  }

  lemma {:induction false} DecIsDigits(n: nat)
    ensures Dec(n) != [] && AllDigits(Dec(n)) && Accumulate(Dec(n), 0) == n
  {
    if n >= 10 {
      DecIsDigits(n / 10);
      AccumulateSnoc(Dec(n / 10), DigitChar(n % 10), 0);
    }
  }

  lemma ScanDigits(s: string)
    requires s != [] && IsDigit(s[0])
    ensures ScanNumber(s) == Ok(Accumulate(s, 0))
    ensures ScanNumber("-" + s) == Ok(-(Accumulate(s, 0) as int))
  {
    var m := "-" + s;
    assert m[1..] == s && !IsSpace(m[0]);
  }

  lemma ScanShown(n: int)
    ensures ScanNumber(ShowInt(n)) == Ok(n) && ShowInt(n) != []
    ensures forall i :: 0 <= i < |ShowInt(n)| ==> ShowInt(n)[i] == '-' || IsDigit(ShowInt(n)[i])
  {
    var m := if n < 0 then -n else n;
    DecIsDigits(m);
    ScanDigits(Dec(m));
  }

  // ----- tokens

  function IndexOf(s: string, d: char): (k: nat)
    ensures k <= |s|
  {
    if s == [] || s[0] == d then 0 else 1 + IndexOf(s[1..], d)
  }

  // The pieces a read-until-delimiter loop delivers: a delimiter at the very end opens no last piece.
  function Tokens(s: string, d: char): seq<string>
    decreases |s|
  {
    if s == [] then []
    else
      var k := IndexOf(s, d);
      [s[..k]] + (if k == |s| then [] else Tokens(s[k + 1..], d))
  }

  function Join(parts: seq<string>, d: char): string {
    if parts == [] then ""
    else if |parts| == 1 then parts[0]
    else parts[0] + [d] + Join(parts[1..], d)
  }

  predicate Free(s: string, d: char) { forall i :: 0 <= i < |s| ==> s[i] != d }

  lemma {:induction false} IndexOfIs(s: string, d: char, k: nat)
    requires k <= |s| && (k < |s| ==> s[k] == d) && Free(s[..k], d)
    ensures IndexOf(s, d) == k
  {
    if k > 0 {
      assert s[..k][0] == s[0] && s[1..][..k - 1] == s[..k][1..];
      IndexOfIs(s[1..], d, k - 1);
    }
  }

  lemma IndexOfAppend(a: string, d: char, b: string)
    requires Free(a, d)
    ensures IndexOf(a + [d] + b, d) == |a| && IndexOf(a, d) == |a|
  {
    assert (a + [d] + b)[..|a|] == a && a[..|a|] == a;
    IndexOfIs(a + [d] + b, d, |a|);
    IndexOfIs(a, d, |a|);
  }

  lemma FirstToken(a: string, d: char, rest: string)
    requires Free(a, d)
    ensures Tokens(a + [d] + rest, d) == [a] + Tokens(rest, d)
    ensures a != [] ==> Tokens(a, d) == [a]
  {
    hide IndexOf, Free;
    IndexOfAppend(a, d, rest);
    var s := a + [d] + rest;
    assert s[..|a|] == a && s[|a| + 1..] == rest && a[..|a|] == a;
  }

  lemma {:induction false} TokensOfJoin(parts: seq<string>, d: char)
    requires forall i :: 0 <= i < |parts| ==> parts[i] != [] && Free(parts[i], d)
    ensures Tokens(Join(parts, d), d) == parts
  {
    hide Tokens, Free;
    if |parts| == 1 {
      FirstToken(parts[0], d, "");
    } else if parts != [] {
      TokensOfJoin(parts[1..], d);
      FirstToken(parts[0], d, Join(parts[1..], d));
      assert [parts[0]] + parts[1..] == parts;
    } else {
      NoTokens(d);
    }
  }

  lemma NoTokens(d: char)
    ensures Tokens("", d) == []
  {
  }

  lemma {:induction false} FreeJoin(parts: seq<string>, d: char, e: char)
    requires d != e && forall i :: 0 <= i < |parts| ==> Free(parts[i], e)
    ensures Free(Join(parts, d), e)
  {
    if |parts| > 1 {
      FreeJoin(parts[1..], d, e);
    }
  }

  function Remaining(s: string, pos: nat, d: char): seq<string> {
    if pos <= |s| then Tokens(s[pos..], d) else []
  }

  lemma TokensFrom(s: string, pos: nat, end: nat, d: char)
    requires pos < |s| && pos <= end <= |s| && Free(s[pos..end], d) && (end < |s| ==> s[end] == d)
    ensures Remaining(s, pos, d) == [s[pos..end]] + Remaining(s, end + 1, d)
  {
    var t, k := s[pos..], end - pos;
    assert t[..k] == s[pos..end];
    IndexOfIs(t, d, k);
    if end < |s| {
      assert t[k + 1..] == s[end + 1..];
    }
  }

  // One read-until-delimiter call on the text from position pos.
  method Getline(s: string, pos: nat, d: char) returns (token: string, next: nat)
    requires pos < |s|
    ensures pos < next <= |s| + 1
    ensures Remaining(s, pos, d) == [token] + Remaining(s, next, d)
  {
    next := pos;
    while next < |s| && s[next] != d
      invariant pos <= next <= |s|
      invariant forall i :: pos <= i < next ==> s[i] != d
    {
      next := next + 1;
    }
    token := s[pos..next];
    TokensFrom(s, pos, next, d);
    next := next + 1;
  }

  // ----- comma-separated numbers

  function Numbers(tokens: seq<string>, convert: string -> Outcome<int>): (r: Outcome<seq<int>>)
    ensures !r.Rejected?
  {
    if tokens == [] then Ok([])
    else if tokens[0] == "" then Numbers(tokens[1..], convert)
    else
      match convert(tokens[0])
      case Ok(v) => (match Numbers(tokens[1..], convert)
                     case Ok(vs) => Ok([v] + vs)
                     case _ => Throws)
      case _ => Throws
  }

  function Continue(read: seq<int>, rest: Outcome<seq<int>>): Outcome<seq<int>> {
    match rest case Ok(vs) => Ok(read + vs) case _ => Throws
  }

  lemma NumbersStep(read: seq<int>, token: string, rest: seq<string>, convert: string -> Outcome<int>)
    ensures Continue(read, Numbers([token] + rest, convert)) ==
            if token == "" then Continue(read, Numbers(rest, convert))
            else if convert(token).Ok? then Continue(read + [convert(token).value], Numbers(rest, convert))
            else Throws
  {
    assert ([token] + rest)[1..] == rest;
    var more := Numbers(rest, convert);
    if token != "" && convert(token).Ok? && more.Ok? {
      assert read + ([convert(token).value] + more.value) == read + [convert(token).value] + more.value;
    }
  }

  method ParseNumbers(s: string, convert: string -> Outcome<int>) returns (r: Outcome<seq<int>>)
    ensures r == Numbers(Tokens(s, ','), convert)
  {
    var values, pos := [], 0;
    assert s[0..] == s;
    ghost var all := Numbers(Tokens(s, ','), convert);
    assert all.Ok? ==> [] + all.value == all.value;
    while pos < |s|
      invariant all == Continue(values, Numbers(Remaining(s, pos, ','), convert))
      decreases |s| + 1 - pos
    {
      var token, next := Getline(s, pos, ',');
      NumbersStep(values, token, Remaining(s, next, ','), convert);
      pos := next;
      if token != "" {
        var v := convert(token);
        if !v.Ok? {
          return Throws;
        }
        values := values + [v.value];
      }
    }
    assert values + [] == values;
    return Ok(values);
  }

  method ParseCoords(s: string) returns (r: Outcome<seq<int>>)
    ensures r == Numbers(Tokens(s, ','), Stoi)
  {
    r := ParseNumbers(s, Stoi);
  }

  method ParseIds(s: string) returns (r: Outcome<seq<int>>)
    ensures r == Numbers(Tokens(s, ','), Stoll)
  {
    r := ParseNumbers(s, Stoll);
  }

  function Shown(values: seq<int>): seq<string> { seq(|values|, i requires 0 <= i < |values| => ShowInt(values[i])) }

  // The separator loop shared by the coordinate, id and task-id printers.
  method PrintJoined(parts: seq<string>, d: char) returns (s: string)
    ensures s == Join(parts, d)
  {
    s := "";
    for i := 0 to |parts|
      invariant s == Join(parts[..i], d)
    {
      JoinSnoc(parts[..i], parts[i], d);
      assert parts[..i + 1] == parts[..i] + [parts[i]];
      if i != 0 {
        s := s + [d];
      }
      s := s + parts[i];
    }
    assert parts[..|parts|] == parts;
  }

  lemma {:induction false} JoinSnoc(parts: seq<string>, p: string, d: char)
    ensures Join(parts + [p], d) == if parts == [] then p else Join(parts, d) + [d] + p
  {
    if |parts| > 1 {
      JoinSnoc(parts[1..], p, d);
      assert (parts + [p])[1..] == parts[1..] + [p];
      assert parts[0] + [d] + (Join(parts[1..], d) + [d] + p) == Join(parts, d) + [d] + p;
    } else if |parts| == 1 {
      assert (parts + [p])[1..] == [p];
    }
  }

  lemma JoinNone(d: char)
    ensures Join([], d) == ""
  {
  }

  lemma {:induction false} NumbersOfShown(values: seq<int>, convert: string -> Outcome<int>)
    requires forall v :: v in values ==> convert(ShowInt(v)) == Ok(v)
    ensures Numbers(Shown(values), convert) == Ok(values)
  {
    hide ScanNumber, ShowInt;
    if values != [] {
      NumbersOfShown(values[1..], convert);
      ScanShown(values[0]);
      assert Shown(values)[1..] == Shown(values[1..]);
      assert [values[0]] + values[1..] == values;
    }
  }

  lemma ListRoundTrip(values: seq<int>, convert: string -> Outcome<int>)
    requires forall v :: v in values ==> convert(ShowInt(v)) == Ok(v)
    ensures Numbers(Tokens(Join(Shown(values), ','), ','), convert) == Ok(values)
    ensures Free(Join(Shown(values), ','), ';') && Free(Join(Shown(values), ','), ':')
    ensures values != [] ==> Join(Shown(values), ',') != []
  {
    var parts := Shown(values);
    forall i | 0 <= i < |parts|
      ensures parts[i] != [] && Free(parts[i], ',') && Free(parts[i], ';') && Free(parts[i], ':')
    {
      ScanShown(values[i]);
    }
    TokensOfJoin(parts, ',');
    FreeJoin(parts, ',', ';');
    FreeJoin(parts, ',', ':');
    NumbersOfShown(values, convert);
  }

  // Coordinates survive the text form, negative ones and the empty list included.
  lemma CoordsRoundTrip(coords: seq<int>)
    requires forall c :: c in coords ==> INT_MIN <= c <= INT_MAX
    ensures Numbers(Tokens(Join(Shown(coords), ','), ','), Stoi) == Ok(coords)
  {
    forall v | v in coords ensures Stoi(ShowInt(v)) == Ok(v) { ShownInt(v); }
    ListRoundTrip(coords, Stoi);
  }

  lemma IdsRoundTrip(ids: seq<int>)
    requires forall i :: i in ids ==> LONG_MIN <= i <= LONG_MAX
    ensures Numbers(Tokens(Join(Shown(ids), ','), ','), Stoll) == Ok(ids)
  {
    forall v | v in ids ensures Stoll(ShowInt(v)) == Ok(v) { ScanShown(v); }
    ListRoundTrip(ids, Stoll);
  }

  // ----- task batches

  type TaskText = (string, seq<int>)

  function TaskOf(token: string): Outcome<TaskText> {
    var sep := IndexOf(token, ':');
    if sep == |token| || sep == 0 || sep + 1 >= |token| then Rejected
    else
      match Numbers(Tokens(token[sep + 1..], ','), Stoi)
      case Ok(coords) => Ok((token[..sep], coords))
      case _ => Throws
  }

  // The first failing task decides the outcome of the whole payload.
  function Prepend(t: Outcome<TaskText>, ts: Outcome<seq<TaskText>>): Outcome<seq<TaskText>> {
    if t.Throws? || (t.Ok? && ts.Throws?) then Throws
    else if t.Rejected? || ts.Rejected? then Rejected
    else Ok([t.value] + ts.value)
  }

  function TasksOf(tokens: seq<string>): Outcome<seq<TaskText>> {
    if tokens == [] then Ok([])
    else if tokens[0] == "" then TasksOf(tokens[1..])
    else Prepend(TaskOf(tokens[0]), TasksOf(tokens[1..]))
  }

  function BatchOf(payload: string): Outcome<seq<TaskText>> {
    var r := TasksOf(Tokens(payload, ';'));
    if r == Ok([]) then Rejected else r
  }

  function Extend(read: seq<TaskText>, rest: Outcome<seq<TaskText>>): Outcome<seq<TaskText>> {
    match rest case Ok(ts) => Ok(read + ts) case Rejected => Rejected case Throws => Throws
  }

  method ParseTask(token: string) returns (r: Outcome<TaskText>)
    ensures r == TaskOf(token)
  {
    var sep := IndexOf(token, ':');
    if sep == |token| || sep == 0 || sep + 1 >= |token| {
      return Rejected;
    }
    var coords := ParseCoords(token[sep + 1..]);
    return if coords.Ok? then Ok((token[..sep], coords.value)) else Throws;
  }

  lemma TasksStep(read: seq<TaskText>, token: string, rest: seq<string>)
    ensures Extend(read, TasksOf([token] + rest)) ==
            if token == "" then Extend(read, TasksOf(rest))
            else if TaskOf(token).Ok? then Extend(read + [TaskOf(token).value], TasksOf(rest))
            else if TaskOf(token).Rejected? then Rejected
            else Throws
  {
    assert ([token] + rest)[1..] == rest;
    var more := TasksOf(rest);
    if token != "" && TaskOf(token).Ok? && more.Ok? {
      assert read + ([TaskOf(token).value] + more.value) == read + [TaskOf(token).value] + more.value;
    }
  }

  method ParseTaskBatchPayload(payload: string) returns (r: Outcome<seq<TaskText>>)
    ensures r == BatchOf(payload)
  {
    var tasks, pos := [], 0;
    assert payload[0..] == payload;
    ghost var all := TasksOf(Tokens(payload, ';'));
    assert all.Ok? ==> [] + all.value == all.value;
    while pos < |payload|
      invariant all == Extend(tasks, TasksOf(Remaining(payload, pos, ';')))
      decreases |payload| + 1 - pos
    {
      var token, next := Getline(payload, pos, ';');
      TasksStep(tasks, token, Remaining(payload, next, ';'));
      pos := next;
      if token != "" {
        var t := ParseTask(token);
        if !t.Ok? {
          return if t.Rejected? then Rejected else Throws;
        }
        tasks := tasks + [t.value];
      }
    }
    assert tasks + [] == tasks;
    return if tasks == [] then Rejected else Ok(tasks);
  }

  // ----- which texts are accepted

  function NonEmpty(tokens: seq<string>): seq<string> {
    if tokens == [] then [] else (if tokens[0] == "" then [] else [tokens[0]]) + NonEmpty(tokens[1..])
  }

  // A list of numbers is read exactly if every token that is not empty converts, one number for each.
  lemma {:induction false} NumbersAre(tokens: seq<string>, convert: string -> Outcome<int>)
    ensures var (r, ts) := (Numbers(tokens, convert), NonEmpty(tokens));
            && (r.Ok? <==> forall t :: t in ts ==> convert(t).Ok?)
            && (r.Ok? ==> |r.value| == |ts| && forall k :: 0 <= k < |ts| ==> convert(ts[k]) == Ok(r.value[k]))
  {
    if tokens != [] {
      NumbersAre(tokens[1..], convert);
      var (t, rest, r) := (tokens[0], NonEmpty(tokens[1..]), Numbers(tokens, convert));
      if t == "" {
        assert NonEmpty(tokens) == rest;
      } else {
        assert NonEmpty(tokens) == [t] + rest;
        assert forall x :: x in [t] + rest <==> x == t || x in rest;
        assert r.Ok? ==> r.value == [convert(t).value] + Numbers(tokens[1..], convert).value;
      }
    }
  }

  // A task is an id and coordinates around its first colon, neither of them empty.
  lemma TaskIs(token: string, id: string, coords: string)
    requires Free(id, ':') && token == id + ":" + coords
    ensures TaskOf(token).Rejected? <==> id == "" || coords == ""
    ensures id != "" && coords != "" ==>
              var r := Numbers(Tokens(coords, ','), Stoi);
              TaskOf(token) == if r.Ok? then Ok((id, r.value)) else Throws
  {
    FirstAt(token, id, coords);
  }

  lemma FirstAt(token: string, id: string, coords: string)
    requires Free(id, ':') && token == id + ":" + coords
    ensures IndexOf(token, ':') == |id| && token[..|id|] == id && token[|id| + 1..] == coords
  {
    IndexIs(token, ':', |id|);
  }

  lemma NoColon(token: string)
    requires Free(token, ':')
    ensures TaskOf(token).Rejected?
  {
    IndexIs(token, ':', |token|);
  }

  lemma {:induction false} IndexIs(s: string, d: char, k: nat)
    requires k <= |s| && Free(s[..k], d) && (k < |s| ==> s[k] == d)
    ensures IndexOf(s, d) == k
  {
    if k > 0 {
      assert s[..k][0] == s[0];
      assert s[1..][..k - 1] == s[..k][1..];
      IndexIs(s[1..], d, k - 1);
    }
  }

  lemma {:induction false} TasksAre(tokens: seq<string>)
    ensures var (r, ts) := (TasksOf(tokens), NonEmpty(tokens));
            && (r.Ok? <==> forall t :: t in ts ==> TaskOf(t).Ok?)
            && (r.Ok? ==> |r.value| == |ts| && forall k :: 0 <= k < |ts| ==> TaskOf(ts[k]) == Ok(r.value[k]))
            && (r.Throws? <==> SomeThrows(ts))
  {
    hide TaskOf, SomeThrows;
    if tokens == [] {
      NothingThrows();
    } else {
      var (t, rest) := (tokens[0], NonEmpty(tokens[1..]));
      TasksAre(tokens[1..]);
      if t != "" {
        assert NonEmpty(tokens) == [t] + rest;
        ThrowsMore(t, rest);
        assert forall x :: x in [t] + rest <==> x == t || x in rest;
      } else {
        assert NonEmpty(tokens) == rest;
      }
    }
  }

  // The task at k throws and all before it are read.
  predicate ThrowsFirst(ts: seq<string>, k: nat) {
    k < |ts| && TaskOf(ts[k]).Throws? && forall j :: 0 <= j < k ==> TaskOf(ts[j]).Ok?
  }

  ghost predicate SomeThrows(ts: seq<string>) { exists k: nat :: ThrowsFirst(ts, k) }

  lemma NothingThrows()
    ensures !SomeThrows([])
  {
  }

  lemma ThrowsMore(t: string, rest: seq<string>)
    ensures SomeThrows([t] + rest) <==> TaskOf(t).Throws? || (TaskOf(t).Ok? && SomeThrows(rest))
  {
    hide TaskOf;
    var ts := [t] + rest;
    if TaskOf(t).Throws? {
      assert ThrowsFirst(ts, 0);
    }
    if TaskOf(t).Ok? {
      if k: nat :| ThrowsFirst(rest, k) {
        assert forall j :: 0 < j <= k ==> ts[j] == rest[j - 1];
        assert ThrowsFirst(ts, k + 1);
      }
    }
    if k: nat :| ThrowsFirst(ts, k) {
      if k > 0 {
        assert TaskOf(ts[0]).Ok?;
        assert forall j :: 0 <= j < k ==> rest[j] == ts[j + 1];
        assert ThrowsFirst(rest, k - 1);
      }
    }
  }

  // A batch is accepted exactly if it has a task and every task that is not empty is read, in order; it
  // throws exactly if the first one that is not read does.
  lemma BatchIs(payload: string)
    ensures var (r, ts) := (BatchOf(payload), NonEmpty(Tokens(payload, ';')));
            && (r.Ok? <==> ts != [] && forall t :: t in ts ==> TaskOf(t).Ok?)
            && (r.Ok? ==> |r.value| == |ts| && forall k :: 0 <= k < |ts| ==> TaskOf(ts[k]) == Ok(r.value[k]))
            && (r.Throws? <==> SomeThrows(ts))
  {
    hide TaskOf, SomeThrows;
    TasksAre(Tokens(payload, ';'));
    NothingThrows();
  }

  function TaskToken(task: (nat, seq<int>)): string { Dec(task.0) + ":" + Join(Shown(task.1), ',') }

  function TaskTokens(batch: seq<(nat, seq<int>)>): seq<string> {
    seq(|batch|, i requires 0 <= i < |batch| => TaskToken(batch[i]))
  }

  method PrintTask(task: (nat, seq<int>)) returns (token: string)
    ensures token == TaskToken(task)
  {
    var coords := PrintJoined(Shown(task.1), ',');
    token := Dec(task.0) + ":" + coords;
  }

  method PrintBatch(batch: seq<(nat, seq<int>)>) returns (payload: string)
    ensures payload == Join(TaskTokens(batch), ';')
  {
    hide TaskToken, Join;
    payload := "";
    ghost var parts := TaskTokens(batch);
    JoinNone(';');
    for i := 0 to |batch|
      invariant payload == Join(parts[..i], ';')
    {
      JoinSnoc(parts[..i], parts[i], ';');
      assert parts[..i + 1] == parts[..i] + [parts[i]];
      var token := PrintTask(batch[i]);
      payload := (if i != 0 then payload + ";" else payload) + token;
    }
    assert parts[..|batch|] == parts;
  }

  function Texts(batch: seq<(nat, seq<int>)>): seq<TaskText> {
    seq(|batch|, i requires 0 <= i < |batch| => (Dec(batch[i].0), batch[i].1))
  }

  predicate IntCoords(batch: seq<(nat, seq<int>)>) {
    forall i, j :: 0 <= i < |batch| && 0 <= j < |batch[i].1| ==> INT_MIN <= batch[i].1[j] <= INT_MAX
  }

  lemma TokenOfTask(task: (nat, seq<int>))
    requires forall c :: c in task.1 ==> INT_MIN <= c <= INT_MAX
    ensures TaskToken(task) != [] && Free(TaskToken(task), ';')
    ensures TaskOf(TaskToken(task)) == if task.1 == [] then Rejected else Ok((Dec(task.0), task.1))
  {
    hide Numbers, Tokens, Join, Dec, Stoi, ShowInt, TaskOf;
    DecIsFree(task.0);
    forall v | v in task.1 ensures Stoi(ShowInt(v)) == Ok(v) { ShownInt(v); }
    ListRoundTrip(task.1, Stoi);
    SplitTask(Dec(task.0), Join(Shown(task.1), ','));
    JoinNone(',');
    assert task.1 == [] ==> Shown(task.1) == [];
  }

  lemma ShownInt(v: int)
    requires INT_MIN <= v <= INT_MAX
    ensures Stoi(ShowInt(v)) == Ok(v)
  {
    hide ScanNumber, ShowInt;
    ScanShown(v);
  }

  lemma DecIsFree(n: nat)
    ensures Dec(n) != [] && Free(Dec(n), ':') && Free(Dec(n), ';')
  {
    hide Dec, Accumulate;
    DecIsDigits(n);
  }

  lemma SplitTask(id: string, coords: string)
    requires id != [] && Free(id, ':')
    ensures TaskOf(id + ":" + coords) ==
              if coords == "" then Rejected
              else match Numbers(Tokens(coords, ','), Stoi) case Ok(cs) => Ok((id, cs)) case _ => Throws
  {
    hide IndexOf, Numbers, Tokens, Stoi, Free;
    IndexOfAppend(id, ':', coords);
    var token := id + [':'] + coords;
    assert token[..|id|] == id && token[|id| + 1..] == coords;
  }

  predicate NoEmptyCoords(batch: seq<(nat, seq<int>)>) {
    forall i :: 0 <= i < |batch| ==> batch[i].1 != []
  }

  lemma TailOfBatch(batch: seq<(nat, seq<int>)>)
    requires batch != [] && IntCoords(batch)
    ensures IntCoords(batch[1..]) && forall c :: c in batch[0].1 ==> INT_MIN <= c <= INT_MAX
    ensures NoEmptyCoords(batch) <==> batch[0].1 != [] && NoEmptyCoords(batch[1..])
    ensures TaskTokens(batch)[1..] == TaskTokens(batch[1..])
    ensures Texts(batch) == [(Dec(batch[0].0), batch[0].1)] + Texts(batch[1..])
  {
    var rest := batch[1..];
    assert forall i :: 0 <= i < |rest| ==> rest[i] == batch[i + 1];
    if batch[0].1 != [] && NoEmptyCoords(rest) {
      forall i | 0 <= i < |batch| ensures batch[i].1 != [] {
        if i > 0 {
          assert rest[i - 1] == batch[i];
        }
      }
    }
  }

  lemma {:induction false} TasksOfPrinted(batch: seq<(nat, seq<int>)>)
    requires IntCoords(batch)
    ensures TasksOf(TaskTokens(batch)) == if NoEmptyCoords(batch) then Ok(Texts(batch)) else Rejected
  {
    if batch != [] {
      TailOfBatch(batch);
      TasksOfPrinted(batch[1..]);
      TokenOfTask(batch[0]);
      var tokens := TaskTokens(batch);
      assert tokens[0] == TaskToken(batch[0]) && tokens[1..] == TaskTokens(batch[1..]);
      assert TasksOf(tokens) == Prepend(TaskOf(tokens[0]), TasksOf(tokens[1..]));
    } else {
      assert Texts(batch) == [];
    }
  }

  // A printed batch is read back as the same ids and coordinates exactly when it has a task and no
  // task has empty coordinates; otherwise the worker refuses the whole message.
  lemma BatchRoundTrip(batch: seq<(nat, seq<int>)>)
    requires IntCoords(batch)
    ensures BatchOf(Join(TaskTokens(batch), ';'))
            == if batch != [] && NoEmptyCoords(batch) then Ok(Texts(batch)) else Rejected
  {
    var parts := TaskTokens(batch);
    forall i | 0 <= i < |parts| ensures parts[i] != [] && Free(parts[i], ';') {
      TokenOfTask(batch[i]);
    }
    TokensOfJoin(parts, ';');
    TasksOfPrinted(batch);
    assert |Texts(batch)| == |batch|;
  }

  // The id strings of a parsed batch, sent back as an acknowledgement, name the same task ids.
  lemma AckRoundTrip(batch: seq<(nat, seq<int>)>)
    requires forall i :: 0 <= i < |batch| ==> batch[i].0 < SIZE_LIMIT
    ensures Numbers(Tokens(Join(IdTexts(batch), ','), ','), Stoull)
            == Ok(seq(|batch|, i requires 0 <= i < |batch| => batch[i].0))
  {
    var ids := IdTexts(batch);
    var values := seq(|batch|, i requires 0 <= i < |batch| => batch[i].0 as int);
    assert ids == Shown(values);
    forall v | v in values ensures Stoull(ShowInt(v)) == Ok(v) { ScanShown(v); }
    ListRoundTrip(values, Stoull);
    assert values == seq(|batch|, i requires 0 <= i < |batch| => batch[i].0);
  }

  function IdTexts(batch: seq<(nat, seq<int>)>): seq<string> {
    seq(|batch|, i requires 0 <= i < |batch| => Texts(batch)[i].0)
  }

  // The frames that carry a batch and its answer: the worker reads back the ids and the coordinates that
  // were sent, as a batch or one task at a time, and the ids it returns are read as those of the batch.
  predicate Survives(batch: seq<(nat, seq<int>)>) {
    && BatchOf(Join(TaskTokens(batch), ';')) == (if batch == [] then Rejected else Ok(Texts(batch)))
    && (forall e :: e in batch ==> Numbers(Tokens(Join(Shown(e.1), ','), ','), Stoi) == Ok(e.1))
    && Numbers(Tokens(Join(IdTexts(batch), ','), ','), Stoull) == Ok(seq(|batch|, i requires 0 <= i < |batch| => batch[i].0))
  }

  lemma BatchSurvives(batch: seq<(nat, seq<int>)>)
    requires forall e :: e in batch ==> e.1 != [] && e.0 < SIZE_LIMIT && forall x :: x in e.1 ==> INT_MIN <= x <= INT_MAX
    ensures Survives(batch)
  {
    hide BatchOf, Numbers, Tokens, Join, Stoi, Stoull, TaskTokens, Texts;
    forall e | e in batch ensures Numbers(Tokens(Join(Shown(e.1), ','), ','), Stoi) == Ok(e.1) {
      CoordsRoundTrip(e.1);
    }
    forall i, j | 0 <= i < |batch| && 0 <= j < |batch[i].1| ensures INT_MIN <= batch[i].1[j] <= INT_MAX {
      assert batch[i] in batch && batch[i].1[j] in batch[i].1;
    }
    forall i | 0 <= i < |batch| ensures batch[i].1 != [] && batch[i].0 < SIZE_LIMIT {
      assert batch[i] in batch;
    }
    BatchRoundTrip(batch);
    AckRoundTrip(batch);
  }

  // ----- worker identities

  function Pad(s: string, width: nat): string
    decreases width - |s|
  {
    if |s| < width then Pad("0" + s, width) else s
  }

  function BuildWorkerIdentity(i: nat): string { "wk_" + Pad(Dec(i), 6) }

  lemma {:induction false} PadKeepsValue(s: string, width: nat)
    requires s != [] && AllDigits(s)
    ensures Pad(s, width) != [] && AllDigits(Pad(s, width)) && Accumulate(Pad(s, width), 0) == Accumulate(s, 0)
    decreases width - |s|
  {
    if |s| < width {
      assert ("0" + s)[1..] == s;
      PadKeepsValue("0" + s, width);
    }
  }

  lemma PrefixOf(a: string, b: string)
    ensures (a + b)[..|a|] == a && (a + b)[|a|..] == b && |a + b| == |a| + |b|
  {
  }

  lemma StoullOf(p: string, v: nat)
    requires ScanNumber(p) == Ok(v) && v < SIZE_LIMIT
    ensures Stoull(p) == Ok(v)
  {
  }

  // The index read back from an identity is the index it was built from, beyond six digits too.
  lemma IdentityRoundTrip(i: nat)
    requires i < SIZE_LIMIT
    ensures |BuildWorkerIdentity(i)| > 3 && BuildWorkerIdentity(i)[..3] == "wk_"
    ensures Stoull(BuildWorkerIdentity(i)[3..]) == Ok(i)
  {
    DecIsDigits(i);
    PadKeepsValue(Dec(i), 6);
    var p := Pad(Dec(i), 6);
    ScanDigits(p);
    StoullOf(p, i);
    PrefixOf("wk_", p);
  }
}
