/** Command templates (apps/cli/src/commands/parser.rs, `render_template`).

    Rendering replaces `{{key}}` by the key's value, one argument after the other, in the
    arbitrary iteration order of a hash map.  Read as a list of literals and holes, the template
    should come out with all holes filled at once.  Two things can spoil that: a value that begins
    another key's placeholder, and a literal that begins a placeholder which the value of the hole
    behind it completes.  Both conditions are proved exact. */
module TemplateRendering {

  type Args = map<string, string>

  // ----- repeated string replacement -----

  function Placeholder(key: string): string {
    "{{" + key + "}}"
  }

  /** Replaces the leftmost non-overlapping occurrences of `pat`. */
  function Replace(s: string, pat: string, v: string): string
    requires pat != ""
  {
    if s == "" then ""
    else if pat <= s then v + Replace(s[|pat|..], pat, v)
    else [s[0]] + Replace(s[1..], pat, v)
  }

  function Fill(text: string, key: string, args: Args): string
    requires key in args
  {
    Replace(text, Placeholder(key), args[key])
  }

  /** The replacements in the order given by `order`. */
  function FillInOrder(text: string, args: Args, order: seq<string>): string
    requires forall i :: 0 <= i < |order| ==> order[i] in args
  {
    if order == [] then text
    else Fill(FillInOrder(text, args, order[..|order| - 1]), order[|order| - 1], args)
  }

  ghost predicate Enumerates(order: seq<string>, keys: set<string>) {
    && (forall i, j :: 0 <= i < j < |order| ==> order[i] != order[j])
    && (forall k :: k in keys <==> k in order)
  }

  method RenderTemplate(template: string, args: Args) returns (result: string, ghost order: seq<string>)
    ensures Enumerates(order, args.Keys)
    ensures result == FillInOrder(template, args, order)
    ensures OrderFree(args) ==>
              forall ts :: TemplateFor(ts, args.Keys) && Text(ts) == template ==> result == Text(FillAll(ts, args))
  {
    result, order := template, [];
    var remaining := args.Keys;
    while remaining != {}
      invariant remaining <= args.Keys
      invariant Enumerates(order, args.Keys - remaining)
      invariant forall i :: 0 <= i < |order| ==> order[i] in args
      invariant result == FillInOrder(template, args, order)
    {
      var key :| key in remaining;
      result := Replace(result, Placeholder(key), args[key]);
      ghost var before := order;
      order := order + [key];
      assert order[..|order| - 1] == before;
      remaining := remaining - {key};
    }
    if OrderFree(args) {
      forall ts | TemplateFor(ts, args.Keys) && Text(ts) == template
        ensures result == Text(FillAll(ts, args))
      {
        FillsAll(ts, args, order);
      }
    }
  }

  // ----- templates as tokens -----

  datatype Token = Lit(text: string) | Hole(key: string)

  ghost function TokenText(t: Token): string {
    match t
    case Lit(text) => text
    case Hole(key) => Placeholder(key)
  }

  ghost function Text(ts: seq<Token>): string {
    if ts == [] then "" else TokenText(ts[0]) + Text(ts[1..])
  }

  ghost function FillToken(t: Token, args: Args): Token {
    if t.Hole? && t.key in args then Lit(args[t.key]) else t
  }

  /** Simultaneous substitution: holes without an argument stay. */
  ghost function FillAll(ts: seq<Token>, args: Args): seq<Token> {
    seq(|ts|, i requires 0 <= i < |ts| => FillToken(ts[i], args))
  }

  ghost predicate BraceFree(key: string) {
    '{' !in key && '}' !in key
  }

  /** No occurrence of the placeholder of `key` can begin inside `s`, whatever follows `s`. */
  ghost predicate Inert(s: string, key: string) {
    forall i :: 0 <= i < |s| ==> !(s[i..] <= Placeholder(key)) && !(Placeholder(key) <= s[i..])
  }

  /** A sufficient condition on `s` alone: every `{` is followed by something else than `{`. */
  ghost predicate Calm(s: string) {
    forall i :: 0 <= i < |s| && s[i] == '{' ==> i + 1 < |s| && s[i + 1] != '{'
  }

  lemma CalmIsInert(s: string, key: string)
    requires Calm(s)
    ensures Inert(s, key)
  {
    var p := Placeholder(key);
    forall i | 0 <= i < |s| ensures !(s[i..] <= p) && !(p <= s[i..]) {
      assert p[0] == '{' && p[1] == '{';
      assert s[i..][0] == s[i];
      if s[i] == '{' {
        assert s[i..][1] == s[i + 1];
      }
    }
  }

  ghost predicate Contains(s: string, key: string) {
    exists i :: 0 <= i < |s| && Placeholder(key) <= s[i..]
  }

  /** Literals spell no placeholder of `keys`, and no value can complete one that they begin. */
  ghost predicate TemplateFor(ts: seq<Token>, keys: set<string>) {
    forall i :: 0 <= i < |ts| ==> TokenFor(ts[i], ts[i + 1..], keys)
  }

  ghost predicate TokenFor(t: Token, rest: seq<Token>, keys: set<string>) {
    match t
    case Lit(text) => forall k :: k in keys ==> !Contains(text, k) && (Inert(text, k) || Closed(rest, k, keys))
    case Hole(key) => BraceFree(key)
  }

  /** Nothing follows, or a hole that is still open when the placeholder of `k` is replaced. */
  ghost predicate Closed(rest: seq<Token>, k: string, keys: set<string>) {
    rest == [] || (rest[0].Hole? && (rest[0].key == k || rest[0].key !in keys))
  }

  /** A placeholder of `key` that begins before `rest` cannot reach into it. */
  ghost predicate Barrier(rest: string, key: string) {
    rest == "" || (|rest| > 1 && rest[0] == '{' && rest[1] != Placeholder(key)[2])
  }

  /** Literals cannot interfere with the placeholder of `key`. */
  ghost predicate Ready(ts: seq<Token>, key: string) {
    forall i :: 0 <= i < |ts| ==> ReadyToken(ts[i], ts[i + 1..], key)
  }

  ghost predicate ReadyToken(t: Token, rest: seq<Token>, key: string) {
    match t
    case Lit(text) => Inert(text, key) || (!Contains(text, key) && Barrier(Text(rest), key))
    case Hole(other) => BraceFree(other)
  }

  lemma OpenHoleIsBarrier(rest: seq<Token>, key: string)
    requires BraceFree(key) && (rest == [] || rest[0].Hole?)
    ensures Barrier(Text(rest), key)
  {
    assert Placeholder(key)[2] == if key == "" then '}' else key[0];
  }

  // ----- one replacement fills one kind of hole -----

  lemma PrefixOfConcatenation(p: string, s: string, rest: string)
    ensures p <= s + rest ==> p <= s || s <= p
  {
    if p <= s + rest && |p| <= |s| {
      assert p == (s + rest)[..|p|] == s[..|p|];
    }
  }

  lemma BracesOfPlaceholder(key: string, d: nat)
    requires BraceFree(key) && d < |Placeholder(key)|
    ensures Placeholder(key)[d] == '{' <==> d < 2
  {
    if 2 <= d < 2 + |key| {
      assert Placeholder(key)[d] == key[d - 2];
    }
  }

  lemma InertStops(s: string, rest: string, key: string, i: nat)
    requires Inert(s, key) && i < |s|
    ensures !(Placeholder(key) <= (s + rest)[i..])
  {
    assert (s + rest)[i..] == s[i..] + rest;
    PrefixOfConcatenation(Placeholder(key), s[i..], rest);
  }

  lemma BarrierStops(s: string, rest: string, key: string, i: nat)
    requires BraceFree(key) && !Contains(s, key) && Barrier(rest, key) && i < |s|
    ensures !(Placeholder(key) <= (s + rest)[i..])
  {
    var p, t, d := Placeholder(key), s[i..] + rest, |s| - i;
    assert (s + rest)[i..] == t;
    if |p| <= d {
      assert t[..|p|] == s[i..][..|p|];
    } else if rest != "" {
      assert t[d] == rest[0] && t[d + 1] == rest[1];
      assert p <= t ==> p[d] == t[d] && p[2] == t[2];
      BracesOfPlaceholder(key, d);
    }
  }

  lemma {:induction false} Skip(s: string, rest: string, key: string, v: string)
    requires forall i :: 0 <= i < |s| ==> !(Placeholder(key) <= (s + rest)[i..])
    ensures Replace(s + rest, Placeholder(key), v) == s + Replace(rest, Placeholder(key), v)
  {
    if s == "" {
      assert s + rest == rest;
    } else {
      assert (s + rest)[0..] == s + rest;
      assert (s + rest)[1..] == s[1..] + rest;
      forall i | 0 <= i < |s[1..]| ensures !(Placeholder(key) <= (s[1..] + rest)[i..]) {
        assert (s[1..] + rest)[i..] == (s + rest)[i + 1..];
      }
      Skip(s[1..], rest, key, v);
    }
  }

  lemma OtherHoleIsInert(j: string, key: string)
    requires BraceFree(j) && BraceFree(key) && j != key
    ensures Inert(Placeholder(j), key)
  {
    var q, p := Placeholder(j), Placeholder(key);
    forall i | 0 <= i < |q| ensures !(q[i..] <= p) && !(p <= q[i..]) {
      assert q[i..][0] == q[i] && p[0] == '{' && p[1] == '{';
      if i == 0 {
        var n := if |j| < |key| then |j| else |key|;
        assert q[0..] == q;
        if |j| == |key| {
          var m :| 0 <= m < |j| && j[m] != key[m];
          assert q[m + 2] == j[m] && p[m + 2] == key[m];
        } else {
          assert q[n + 2] != p[n + 2];
        }
      } else if i == 1 {
        assert q[i..][1] == q[2];
      }
    }
  }

  lemma FillAllHead(ts: seq<Token>, args: Args)
    requires ts != []
    ensures FillAll(ts, args) == [FillToken(ts[0], args)] + FillAll(ts[1..], args)
  {
  }

  lemma SkipToken(t: Token, rest: seq<Token>, key: string, v: string)
    requires BraceFree(key) && ReadyToken(t, rest, key) && t != Hole(key)
    ensures Replace(TokenText(t) + Text(rest), Placeholder(key), v) ==
            TokenText(t) + Replace(Text(rest), Placeholder(key), v)
  {
    var s := TokenText(t);
    if t.Hole? {
      OtherHoleIsInert(t.key, key);
    }
    forall i | 0 <= i < |s| ensures !(Placeholder(key) <= (s + Text(rest))[i..]) {
      if Inert(s, key) {
        InertStops(s, Text(rest), key, i);
      } else {
        BarrierStops(s, Text(rest), key, i);
      }
    }
    Skip(s, Text(rest), key, v);
  }

  lemma ReadyTail(ts: seq<Token>, key: string)
    requires Ready(ts, key) && ts != []
    ensures Ready(ts[1..], key) && ReadyToken(ts[0], ts[1..], key)
  {
    forall i | 0 <= i < |ts[1..]| ensures ReadyToken(ts[1..][i], ts[1..][i + 1..], key) {
      assert ts[1..][i + 1..] == ts[i + 1 + 1..];
      assert ReadyToken(ts[i + 1], ts[i + 1 + 1..], key);
    }
    assert ts[0 + 1..] == ts[1..];
  }

  /** Replacing the placeholder of `key` fills exactly the holes of that name. */
  lemma {:induction false} ReplaceFills(ts: seq<Token>, key: string, v: string)
    requires BraceFree(key) && Ready(ts, key)
    ensures Replace(Text(ts), Placeholder(key), v) == Text(FillAll(ts, map[key := v]))
  {
    hide Ready, ReadyToken;
    var p := Placeholder(key);
    if ts == [] {
    } else {
      var t, rest := ts[0], Text(ts[1..]);
      var filled := FillToken(t, map[key := v]);
      ReadyTail(ts, key);
      ReplaceFills(ts[1..], key, v);
      FillAllHead(ts, map[key := v]);
      assert FillAll(ts, map[key := v])[1..] == FillAll(ts[1..], map[key := v]);
      assert Text(FillAll(ts, map[key := v])) == TokenText(filled) + Replace(rest, p, v);
      if t == Hole(key) {
        assert p <= p + rest && (p + rest)[|p|..] == rest;
      } else {
        SkipToken(t, ts[1..], key, v);
      }
    }
  }

  /** Replacing a pattern by itself changes nothing. */
  lemma ReplaceBySelf(s: string, pat: string)
    requires pat != ""
    ensures Replace(s, pat, pat) == s
  {
    if s != "" && pat <= s {
      assert s == pat + s[|pat|..];
    }
  }

  // ----- all replacements, in any order -----

  /** The caller-checkable condition: keys have no braces, and no value can begin an occurrence of
      another key's placeholder, unless that key's value is its own placeholder. */
  ghost predicate OrderFree(args: Args) {
    && (forall k :: k in args ==> BraceFree(k))
    && (forall a, k :: a in args && k in args && a != k ==> NoInterference(args, a, k))
  }

  ghost predicate NoInterference(args: Args, a: string, k: string)
    requires a in args && k in args
  {
    Inert(args[a], k) || args[k] == Placeholder(k)
  }

  ghost function Only(args: Args, keys: seq<string>): Args {
    map k | k in args && k in keys :: args[k]
  }

  lemma FillOneMore(ts: seq<Token>, args: Args, done: seq<string>, key: string)
    requires key in args && key !in done
    ensures FillAll(FillAll(ts, Only(args, done)), map[key := args[key]]) == FillAll(ts, Only(args, done + [key]))
  {
    assert Only(args, done + [key]) == Only(args, done)[key := args[key]];
  }

  lemma SelfFillKeepsText(ts: seq<Token>, key: string)
    ensures Text(FillAll(ts, map[key := Placeholder(key)])) == Text(ts)
  {
    if ts != [] {
      FillAllHead(ts, map[key := Placeholder(key)]);
      assert FillAll(ts, map[key := Placeholder(key)])[1..] == FillAll(ts[1..], map[key := Placeholder(key)]);
      SelfFillKeepsText(ts[1..], key);
    }
  }

  lemma FillAllNothing(ts: seq<Token>, args: Args)
    requires args == map[]
    ensures FillAll(ts, args) == ts
  {
  }

  /** With the holes of `done` filled, literals and values do not interfere with another key. */
  lemma ReadyForNext(ts: seq<Token>, args: Args, done: seq<string>, key: string)
    requires OrderFree(args) && TemplateFor(ts, args.Keys)
    requires key in args && key !in done && args[key] != Placeholder(key)
    ensures Ready(FillAll(ts, Only(args, done)), key)
  {
    hide Inert, Contains, Barrier, Text;
    var now := FillAll(ts, Only(args, done));
    forall i | 0 <= i < |now| ensures ReadyToken(now[i], now[i + 1..], key) {
      assert TokenFor(ts[i], ts[i + 1..], args.Keys);
      if ts[i].Hole? && ts[i].key in Only(args, done) {
        assert NoInterference(args, ts[i].key, key);
      } else if ts[i].Lit? && Closed(ts[i + 1..], key, args.Keys) {
        OpenHoleIsBarrier(now[i + 1..], key);
      }
    }
  }

  /** Filling in the order `order` is filling the listed holes at once. */
  lemma {:induction false} FillsListed(ts: seq<Token>, args: Args, order: seq<string>)
    requires OrderFree(args) && TemplateFor(ts, args.Keys)
    requires forall i :: 0 <= i < |order| ==> order[i] in args
    requires forall i, j :: 0 <= i < j < |order| ==> order[i] != order[j]
    ensures FillInOrder(Text(ts), args, order) == Text(FillAll(ts, Only(args, order)))
  {
    if order == [] {
      FillAllNothing(ts, Only(args, order));
    } else {
      var done, key := order[..|order| - 1], order[|order| - 1];
      assert order == done + [key];
      FillsListed(ts, args, done);
      var now := FillAll(ts, Only(args, done));
      if args[key] == Placeholder(key) {
        ReplaceBySelf(Text(now), Placeholder(key));
        SelfFillKeepsText(now, key);
      } else {
        ReadyForNext(ts, args, done, key);
        ReplaceFills(now, key, args[key]);
      }
      FillOneMore(ts, args, done, key);
    }
  }

  lemma FillsAll(ts: seq<Token>, args: Args, order: seq<string>)
    requires OrderFree(args) && TemplateFor(ts, args.Keys) && Enumerates(order, args.Keys)
    ensures FillInOrder(Text(ts), args, order) == Text(FillAll(ts, args))
  {
    FillsListed(ts, args, order);
    assert Only(args, order) == args;
  }

  // ----- the condition on the arguments is exact -----

  /** No template can tell two orders of replacement apart. */
  ghost predicate OrderUnobservable(args: Args) {
    forall ts, o1, o2 :: TemplateFor(ts, args.Keys) && Enumerates(o1, args.Keys) && Enumerates(o2, args.Keys) ==>
      FillInOrder(Text(ts), args, o1) == FillInOrder(Text(ts), args, o2)
  }

  lemma ReplaceLength(s: string, pat: string, v: string)
    requires pat != ""
    ensures |pat| <= |v| ==> |s| <= |Replace(s, pat, v)|
    ensures |v| <= |pat| ==> |Replace(s, pat, v)| <= |s|
  {
  }

  lemma {:induction false} ReplaceChanges(s: string, pat: string, v: string, i: nat)
    requires pat != "" && v != pat
    requires i <= |s| && pat <= s[i..]
    ensures Replace(s, pat, v) != s
  {
    if pat <= s {
      ReplaceLength(s[|pat|..], pat, v);
      assert s == pat + s[|pat|..];
      assert |v| == |pat| ==> (v + Replace(s[|pat|..], pat, v))[..|pat|] == v;
    } else {
      assert s[0..] == s;
      assert s[i..] == s[1..][i - 1..];
      ReplaceChanges(s[1..], pat, v, i - 1);
      assert s == [s[0]] + s[1..];
    }
  }

  /** While no hole is filled, a template is ready for each of its keys. */
  lemma TemplateReady(ts: seq<Token>, keys: set<string>, key: string)
    requires TemplateFor(ts, keys) && key in keys && BraceFree(key)
    ensures Ready(ts, key)
  {
    forall i | 0 <= i < |ts| ensures ReadyToken(ts[i], ts[i + 1..], key) {
      assert TokenFor(ts[i], ts[i + 1..], keys);
      if ts[i].Lit? && !Inert(ts[i].text, key) {
        OpenHoleIsBarrier(ts[i + 1..], key);
      }
    }
  }

  lemma {:induction false} FillAbsent(ts: seq<Token>, args: Args, order: seq<string>)
    requires TemplateFor(ts, args.Keys)
    requires forall i :: 0 <= i < |order| ==> order[i] in args && BraceFree(order[i]) && Hole(order[i]) !in ts
    ensures FillInOrder(Text(ts), args, order) == Text(ts)
  {
    if order == [] {
    } else {
      var before, key := order[..|order| - 1], order[|order| - 1];
      FillAbsent(ts, args, before);
      TemplateReady(ts, args.Keys, key);
      ReplaceFills(ts, key, args[key]);
      assert FillAll(ts, map[key := args[key]]) == ts;
    }
  }

  lemma EnumerationExists(keys: set<string>) returns (order: seq<string>)
    ensures Enumerates(order, keys)
  {
    order := [];
    var rest := keys;
    while rest != {}
      invariant rest <= keys
      invariant Enumerates(order, keys - rest)
    {
      var k :| k in rest;
      order, rest := order + [k], rest - {k};
    }
  }

  /** What must follow the value of a hole to complete a placeholder begun at `i`. */
  lemma Completion(v: string, key: string, i: nat) returns (rest: string)
    requires BraceFree(key) && i < |v|
    requires v[i..] <= Placeholder(key) || Placeholder(key) <= v[i..]
    ensures Calm(rest) && Placeholder(key) <= (v + rest)[i..]
  {
    var p := Placeholder(key);
    if p <= v[i..] {
      rest := "";
      assert v + rest == v;
    } else {
      rest := p[|v| - i..];
      assert (v + rest)[i..] == v[i..] + rest == p;
    }
  }

  lemma FillLast(text: string, args: Args, order: seq<string>, key: string)
    requires forall i :: 0 <= i < |order| ==> order[i] in args
    requires key in args
    ensures FillInOrder(text, args, order + [key]) == Fill(FillInOrder(text, args, order), key, args)
  {
    assert (order + [key])[..|order|] == order;
  }

  lemma FillHole(args: Args, a: string, rest: string)
    requires a in args && BraceFree(a) && TemplateFor([Hole(a), Lit(rest)], args.Keys)
    ensures Fill(Text([Hole(a), Lit(rest)]), a, args) == args[a] + rest
  {
    var ts := [Hole(a), Lit(rest)];
    TemplateReady(ts, args.Keys, a);
    ReplaceFills(ts, a, args[a]);
    assert FillAll(ts, map[a := args[a]]) == [Lit(args[a]), Lit(rest)];
    TwoLiterals(args[a], rest);
  }

  /** With the other arguments out of the way, the two orders of `a` and `k` disagree. */
  lemma TwoOrders(args: Args, a: string, k: string, rest: string, i: nat, others: seq<string>)
    requires forall key :: key in args ==> BraceFree(key)
    requires a in args && k in args && a != k && args[k] != Placeholder(k)
    requires TemplateFor([Hole(a), Lit(rest)], args.Keys)
    requires i <= |args[a] + rest| && Placeholder(k) <= (args[a] + rest)[i..]
    requires forall j :: 0 <= j < |others| ==> others[j] in args.Keys - {a, k}
    ensures var text := Text([Hole(a), Lit(rest)]);
            FillInOrder(text, args, others + [k] + [a]) != FillInOrder(text, args, others + [a] + [k])
  {
    var text := Text([Hole(a), Lit(rest)]);
    FillAbsent([Hole(a), Lit(rest)], args, others + [k]);
    FillAbsent([Hole(a), Lit(rest)], args, others);
    FillLast(text, args, others + [k], a);
    FillLast(text, args, others, a);
    FillLast(text, args, others + [a], k);
    FillHole(args, a, rest);
    ReplaceChanges(args[a] + rest, Placeholder(k), args[k], i);
  }

  lemma CalmTemplate(ts: seq<Token>, keys: set<string>)
    requires forall i :: 0 <= i < |ts| ==> if ts[i].Lit? then Calm(ts[i].text) else BraceFree(ts[i].key)
    ensures TemplateFor(ts, keys)
  {
    forall i, k | 0 <= i < |ts| && k in keys && ts[i].Lit? ensures Inert(ts[i].text, k) {
      CalmIsInert(ts[i].text, k);
    }
  }

  lemma Observed(args: Args, ts: seq<Token>, o1: seq<string>, o2: seq<string>)
    requires TemplateFor(ts, args.Keys) && Enumerates(o1, args.Keys) && Enumerates(o2, args.Keys)
    requires FillInOrder(Text(ts), args, o1) != FillInOrder(Text(ts), args, o2)
    ensures !OrderUnobservable(args)
  {
  }

  /** A pair of interfering arguments is seen by the template made of the one's hole and the
      completion of the other's placeholder. */
  lemma InterferenceIsObservable(args: Args, a: string, k: string)
    requires forall key :: key in args ==> BraceFree(key)
    requires a in args && k in args && a != k && !NoInterference(args, a, k)
    ensures !OrderUnobservable(args)
  {
    var i, rest := InterferencePoint(args[a], k);
    CalmTemplate([Hole(a), Lit(rest)], args.Keys);
    var others := EnumerationExists(args.Keys - {a, k});
    BothEnumerate(args.Keys, others, a, k);
    BothEnumerate(args.Keys, others, k, a);
    TwoOrders(args, a, k, rest, i, others);
    Observed(args, [Hole(a), Lit(rest)], others + [k] + [a], others + [a] + [k]);
  }

  lemma InterferencePoint(v: string, key: string) returns (i: nat, rest: string)
    requires BraceFree(key) && !Inert(v, key)
    ensures Calm(rest) && i <= |v + rest| && Placeholder(key) <= (v + rest)[i..]
  {
    i :| 0 <= i < |v| && (v[i..] <= Placeholder(key) || Placeholder(key) <= v[i..]);
    rest := Completion(v, key, i);
  }

  lemma BothEnumerate(keys: set<string>, others: seq<string>, a: string, k: string)
    requires a in keys && k in keys && a != k && Enumerates(others, keys - {a, k})
    ensures Enumerates(others + [a] + [k], keys)
  {
  }

  lemma TwoLiterals(s: string, t: string)
    ensures Text([Lit(s), Lit(t)]) == s + t
  {
    assert [Lit(s), Lit(t)][1..] == [Lit(t)];
    assert [Lit(t)][1..] == [];
    assert Text([Lit(t)]) == t;
  }

  /** For brace-free keys, the iteration order of the map is unobservable exactly when the
      arguments do not interfere; then rendering is simultaneous substitution (`FillsAll`). */
  lemma OrderUnobservableIff(args: Args)
    requires forall key :: key in args ==> BraceFree(key)
    ensures OrderUnobservable(args) <==> OrderFree(args)
  {
    if OrderFree(args) {
      forall ts, o1, o2 | TemplateFor(ts, args.Keys) && Enumerates(o1, args.Keys) && Enumerates(o2, args.Keys)
        ensures FillInOrder(Text(ts), args, o1) == FillInOrder(Text(ts), args, o2)
      {
        FillsAll(ts, args, o1);
        FillsAll(ts, args, o2);
      }
    } else {
      var a, k :| a in args && k in args && a != k && !NoInterference(args, a, k);
      InterferenceIsObservable(args, a, k);
    }
  }

  /** Values whose every `{` is followed by another character than `{` never interfere, nor do such
      literals: rendering then fills all holes at once, in whatever order. */
  lemma PlainTextIsFilledAtOnce(ts: seq<Token>, args: Args, order: seq<string>)
    requires forall i :: 0 <= i < |ts| ==> if ts[i].Lit? then Calm(ts[i].text) else BraceFree(ts[i].key)
    requires forall key :: key in args ==> BraceFree(key) && Calm(args[key])
    requires Enumerates(order, args.Keys)
    ensures OrderFree(args) && FillInOrder(Text(ts), args, order) == Text(FillAll(ts, args))
  {
    forall a, k | a in args && k in args && a != k ensures NoInterference(args, a, k) {
      CalmIsInert(args[a], k);
    }
    CalmTemplate(ts, args.Keys);
    FillsAll(ts, args, order);
  }

  /** A value that spells another placeholder is the plainest way to see the order. */
  lemma PlaceholderAsValue()
    ensures !OrderUnobservable(map["a" := "{{b}}", "b" := "x"])
  {
    var args := map["a" := "{{b}}", "b" := "x"];
    assert args["a"][0..] == "{{b}}" == Placeholder("b");
    assert !Inert(args["a"], "b");
    InterferenceIsObservable(args, "a", "b");
  }

  // ----- the condition on the template is exact -----

  /** The reading of a string as a template over `keys`: no literal spells a placeholder, and
      literals are as long as possible. */
  ghost predicate Tokenized(ts: seq<Token>, keys: set<string>) {
    forall i :: 0 <= i < |ts| ==> TokenizedAt(ts[i], ts[i + 1..], keys)
  }

  ghost predicate TokenizedAt(t: Token, rest: seq<Token>, keys: set<string>) {
    match t
    case Lit(text) => (forall k :: k in keys ==> !Contains(text, k)) && (rest == [] || rest[0].Hole?)
    case Hole(key) => key in keys
  }

  lemma TokenizedCons(t: Token, rest: seq<Token>, keys: set<string>)
    requires Tokenized(rest, keys) && TokenizedAt(t, rest, keys)
    ensures Tokenized([t] + rest, keys) && Text([t] + rest) == TokenText(t) + Text(rest)
  {
    var ts := [t] + rest;
    forall i | 0 <= i < |ts| ensures TokenizedAt(ts[i], ts[i + 1..], keys) {
      assert ts[i + 1..] == rest[i..];
      assert i > 0 ==> rest[i - 1 + 1..] == rest[i..] && TokenizedAt(rest[i - 1], rest[i - 1 + 1..], keys);
    }
    assert ts[1..] == rest;
  }

  lemma LiteralGrows(c: char, text: string, rest: string, key: string)
    requires !Contains(text, key) && !(Placeholder(key) <= [c] + (text + rest))
    ensures !Contains([c] + text, key)
  {
    var s := [c] + text;
    forall i | 0 <= i < |s| ensures !(Placeholder(key) <= s[i..]) {
      assert i > 0 ==> s[i..] == text[i - 1..];
      assert [c] + (text + rest) == s + rest;
      assert s[0..] == s;
    }
  }

  /** Every string is a template. */
  lemma {:induction false} TokensExist(s: string, keys: set<string>) returns (ts: seq<Token>)
    ensures Tokenized(ts, keys) && Text(ts) == s
    decreases |s|
  {
    if s == "" {
      return [];
    }
    hide Contains, Tokenized, Text;
    if k :| k in keys && Placeholder(k) <= s {
      var rest := TokensExist(s[|Placeholder(k)|..], keys);
      TokenizedCons(Hole(k), rest, keys);
      assert s == Placeholder(k) + s[|Placeholder(k)|..];
      return [Hole(k)] + rest;
    }
    var rest := TokensExist(s[1..], keys);
    assert s == [s[0]] + s[1..];
    if rest != [] && rest[0].Lit? {
      ts := LongerLiteral(s[0], rest, keys);
    } else {
      forall k | k in keys ensures !Contains([s[0]], k) {
        OneCharacter(s[0], k);
      }
      TokenizedCons(Lit([s[0]]), rest, keys);
      ts := [Lit([s[0]])] + rest;
    }
  }

  lemma OneCharacter(c: char, key: string)
    ensures !Contains([c], key)
  {
    assert |Placeholder(key)| > 1;
  }

  lemma TokenizedTail(ts: seq<Token>, keys: set<string>)
    requires Tokenized(ts, keys) && ts != []
    ensures Tokenized(ts[1..], keys) && TokenizedAt(ts[0], ts[1..], keys)
  {
    hide TokenizedAt;
    var tail := ts[1..];
    assert TokenizedAt(ts[0], ts[0 + 1..], keys);
    forall i | 0 <= i < |tail| ensures TokenizedAt(tail[i], tail[i + 1..], keys) {
      assert tail[i + 1..] == ts[i + 1 + 1..] && TokenizedAt(ts[i + 1], ts[i + 1 + 1..], keys);
    }
  }

  lemma LongerLiteral(c: char, rest: seq<Token>, keys: set<string>) returns (ts: seq<Token>)
    requires Tokenized(rest, keys) && rest != [] && rest[0].Lit?
    requires forall k :: k in keys ==> !(Placeholder(k) <= [c] + Text(rest))
    ensures Tokenized(ts, keys) && Text(ts) == [c] + Text(rest)
  {
    hide Contains, Placeholder, Tokenized;
    var text, tail := rest[0].text, rest[1..];
    TokenizedTail(rest, keys);
    forall k | k in keys ensures !Contains([c] + text, k) {
      LiteralGrows(c, text, Text(tail), k);
    }
    TokenizedCons(Lit([c] + text), tail, keys);
    assert [c] + (text + Text(tail)) == ([c] + text) + Text(tail);
    ts := [Lit([c] + text)] + tail;
  }

  /** No arguments that do not interfere with each other can tell two orders apart. */
  ghost predicate TemplateSafe(text: string, keys: set<string>) {
    forall args: Args, o1, o2 ::
      args.Keys == keys && OrderFree(args) && Enumerates(o1, keys) && Enumerates(o2, keys) ==>
      FillInOrder(text, args, o1) == FillInOrder(text, args, o2)
  }

  lemma {:induction false} PrefixSurvives(s: string, key: string, v: string, d: nat)
    requires BraceFree(key) && v != "" && Barrier(v, key) && 1 <= d <= |Placeholder(key)|
    ensures Placeholder(key)[d..] <= Replace(s, Placeholder(key), v) ==> Placeholder(key)[d..] <= s
  {
    var p := Placeholder(key);
    var q, r := p[d..], Replace(s, p, v);
    if s != "" && q != "" {
      if p <= s {
        BracesOfPlaceholder(key, d);
        assert r[0] == v[0] && r[1] == v[1] && q[0] == p[d];
        assert d == 1 ==> q[1] == p[2];
      } else {
        PrefixSurvives(s[1..], key, v, d + 1);
        assert q == [p[d]] + p[d + 1..] && s == [s[0]] + s[1..];
      }
    }
  }

  /** Replacing by `v` neither spells nor completes the placeholder again. */
  lemma {:induction false} NoneLeft(s: string, key: string, v: string)
    requires BraceFree(key) && v != "" && Barrier(v, key) && Inert(v, key)
    ensures !Contains(Replace(s, Placeholder(key), v), key)
  {
    var p := Placeholder(key);
    var r := Replace(s, p, v);
    if s == "" {
    } else {
      var n := if p <= s then |v| else 1;
      var rest := if p <= s then s[|p|..] else s[1..];
      NoneLeft(rest, key, v);
      PrefixSurvives(rest, key, v, 1);
      forall i | 0 <= i < |r| ensures !(p <= r[i..]) {
        if i >= n {
          assert r[i..] == Replace(rest, p, v)[i - n..];
        } else if p <= s {
          InertStops(v, Replace(rest, p, v), key, i);
        } else {
          assert r[0..] == r && r == [s[0]] + Replace(rest, p, v);
          assert p == [p[0]] + p[1..] && s == [s[0]] + rest;
        }
      }
    }
  }

  lemma {:induction false} SelfFills(text: string, args: Args, order: seq<string>)
    requires forall i :: 0 <= i < |order| ==> order[i] in args && args[order[i]] == Placeholder(order[i])
    ensures FillInOrder(text, args, order) == text
  {
    if order == [] {
    } else {
      SelfFills(text, args, order[..|order| - 1]);
      ReplaceBySelf(text, Placeholder(order[|order| - 1]));
    }
  }

  lemma {:induction false} TextAround(ts: seq<Token>, i: nat)
    requires i + 1 < |ts|
    ensures Text(ts) == Text(ts[..i]) + (TokenText(ts[i]) + TokenText(ts[i + 1]) + Text(ts[i + 2..]))
  {
    if i == 0 {
      assert ts[1..][1..] == ts[2..];
    } else {
      TextAround(ts[1..], i - 1);
      assert ts[..i][1..] == ts[1..][..i - 1];
      assert ts[1..][i - 1 + 2..] == ts[i + 2..];
    }
  }

  lemma ContainsInContext(before: string, s: string, after: string, key: string, j: nat)
    requires j < |s| && Placeholder(key) <= s[j..]
    ensures Contains(before + (s + after), key)
  {
    var t := before + (s + after);
    assert t[|before| + j..] == s[j..] + after;
  }

  /** While no hole is filled, a string read as a template is ready for any key. */
  lemma TokenizedReady(ts: seq<Token>, keys: set<string>, key: string)
    requires Tokenized(ts, keys) && key in keys && forall k :: k in keys ==> BraceFree(k)
    ensures Ready(ts, key)
  {
    forall i | 0 <= i < |ts| ensures ReadyToken(ts[i], ts[i + 1..], key) {
      assert TokenizedAt(ts[i], ts[i + 1..], keys);
      if ts[i].Lit? {
        OpenHoleIsBarrier(ts[i + 1..], key);
      }
    }
  }

  /** After filling the holes of `k` by a calm barrier, the template is still ready for `h`. */
  lemma ReadyBehindBarrier(ts: seq<Token>, keys: set<string>, k: string, v: string, h: string)
    requires Tokenized(ts, keys) && h in keys && forall key :: key in keys ==> BraceFree(key)
    requires v != "" && Calm(v) && Barrier(v, h)
    ensures Ready(FillAll(ts, map[k := v]), h)
  {
    var now := FillAll(ts, map[k := v]);
    forall i | 0 <= i < |now| ensures ReadyToken(now[i], now[i + 1..], h) {
      assert TokenizedAt(ts[i], ts[i + 1..], keys);
      if ts[i] == Hole(k) {
        CalmIsInert(v, h);
      } else if ts[i].Lit? {
        if now[i + 1..] != [] && now[i + 1].Lit? {
          assert Text(now[i + 1..]) == v + Text(now[i + 1..][1..]);
        } else {
          OpenHoleIsBarrier(now[i + 1..], h);
        }
      }
    }
  }

  /** The value used below for the key whose placeholder a literal begins. */
  function Fence(h: string, k: string): (v: string)
    ensures v != "" && Calm(v) && Barrier(v, h) && Barrier(v, k)
  {
    var c, d := Placeholder(h)[2], Placeholder(k)[2];
    if c != 'x' && d != 'x' then "{x" else if c != 'y' && d != 'y' then "{y" else "{z"
  }

  /** `h` completes what a literal begins, `k` is not its own placeholder, the others are. */
  function Completing(keys: set<string>, h: string, rest: string, k: string): (args: Args)
    ensures args.Keys == keys
  {
    map x | x in keys :: if x == h then rest else if x == k then Fence(h, k) else Placeholder(x)
  }

  lemma CompletingIsOrderFree(keys: set<string>, h: string, rest: string, k: string)
    requires forall key :: key in keys ==> BraceFree(key)
    requires h in keys && k in keys && h != k && Calm(rest)
    ensures OrderFree(Completing(keys, h, rest, k))
  {
    var args := Completing(keys, h, rest, k);
    forall a, b | a in args && b in args && a != b ensures NoInterference(args, a, b) {
      if a == h || a == k {
        CalmIsInert(args[a], b);
      } else {
        OtherHoleIsInert(a, b);
      }
    }
  }

  /** Filling the hole of `h` last completes the placeholder of `k` that the literal before begins. */
  lemma FilledTooLate(ts: seq<Token>, keys: set<string>, i: nat, k: string, v: string, rest: string, j: nat)
    requires Tokenized(ts, keys) && k in keys && forall key :: key in keys ==> BraceFree(key)
    requires i + 1 < |ts| && ts[i].Lit? && ts[i + 1].Hole? && ts[i + 1].key in keys && ts[i + 1].key != k
    requires v != "" && Calm(v) && Barrier(v, ts[i + 1].key)
    requires j < |ts[i].text + rest| && Placeholder(k) <= (ts[i].text + rest)[j..]
    ensures Contains(Replace(Replace(Text(ts), Placeholder(k), v), Placeholder(ts[i + 1].key), rest), k)
  {
    hide Ready, Contains, Tokenized, Placeholder, Barrier, Calm;
    var h := ts[i + 1].key;
    var now := FillAll(ts, map[k := v]);
    var final := FillAll(now, map[h := rest]);
    TokenizedReady(ts, keys, k);
    ReplaceFills(ts, k, v);
    ReadyBehindBarrier(ts, keys, k, v, h);
    ReplaceFills(now, h, rest);
    assert final[i] == ts[i] && final[i + 1] == Lit(rest);
    TextAround(final, i);
    ContainsInContext(Text(final[..i]), ts[i].text + rest, Text(final[i + 2..]), k, j);
  }

  /** Filling `k` first leaves the completed placeholder in the result, filling it last does not. */
  lemma CompletionIsSeen(ts: seq<Token>, keys: set<string>, i: nat, k: string)
    requires Tokenized(ts, keys) && forall key :: key in keys ==> BraceFree(key)
    requires i + 1 < |ts| && ts[i].Lit? && ts[i + 1].Hole? && ts[i + 1].key in keys
    requires k in keys && ts[i + 1].key != k && !Inert(ts[i].text, k)
    ensures !TemplateSafe(Text(ts), keys)
  {
    var h := ts[i + 1].key;
    var j, rest := InterferencePoint(ts[i].text, k);
    assert j < |ts[i].text + rest|;
    var args, v := Completing(keys, h, rest, k), Fence(h, k);
    CompletingIsOrderFree(keys, h, rest, k);
    FilledTooLate(ts, keys, i, k, v, rest, j);
    CalmIsInert(v, k);
    NoneLeft(Fill(Text(ts), h, args), k, v);
    OrdersDiffer(Text(ts), args, h, k);
  }

  /** Orders of `h` and `k` that differ when the other arguments do nothing. */
  lemma OrdersDiffer(text: string, args: Args, h: string, k: string)
    requires OrderFree(args) && h in args && k in args && h != k
    requires forall x :: x in args && x != h && x != k ==> args[x] == Placeholder(x)
    requires Fill(Fill(text, h, args), k, args) != Fill(Fill(text, k, args), h, args)
    ensures !TemplateSafe(text, args.Keys)
  {
    hide Fill, OrderFree, Placeholder, Enumerates;
    var keys := args.Keys;
    var others := EnumerationExists(keys - {h, k});
    BothEnumerate(keys, others, h, k);
    BothEnumerate(keys, others, k, h);
    EnumerationWithin(others, keys - {h, k});
    LastTwo(text, args, others, h, k);
    LastTwo(text, args, others, k, h);
    SeenByArguments(text, args, others + [h] + [k], others + [k] + [h]);
  }

  lemma SeenByArguments(text: string, args: Args, o1: seq<string>, o2: seq<string>)
    requires OrderFree(args) && Enumerates(o1, args.Keys) && Enumerates(o2, args.Keys)
    requires FillInOrder(text, args, o1) != FillInOrder(text, args, o2)
    ensures !TemplateSafe(text, args.Keys)
  {
  }

  lemma EnumerationWithin(order: seq<string>, keys: set<string>)
    requires Enumerates(order, keys)
    ensures forall i :: 0 <= i < |order| ==> order[i] in keys
  {
  }

  /** Behind arguments that do nothing. */
  lemma LastTwo(text: string, args: Args, others: seq<string>, a: string, b: string)
    requires forall i :: 0 <= i < |others| ==> others[i] in args && args[others[i]] == Placeholder(others[i])
    requires a in args && b in args
    ensures FillInOrder(text, args, others + [a] + [b]) == Fill(Fill(text, a, args), b, args)
  {
    hide Fill, FillInOrder, Placeholder;
    SelfFills(text, args, others);
    FillLast(text, args, others, a);
    FillLast(text, args, others + [a], b);
  }

  /** Read as a template, a string is rendered alike in all orders, whatever arguments do not
      interfere with each other, if and only if no literal begins a placeholder that the value of
      the hole behind it could complete. */
  lemma TemplateSafeIff(ts: seq<Token>, keys: set<string>)
    requires Tokenized(ts, keys) && forall key :: key in keys ==> BraceFree(key)
    ensures TemplateSafe(Text(ts), keys) <==> TemplateFor(ts, keys)
  {
    if TemplateFor(ts, keys) {
      forall args: Args, o1, o2 | args.Keys == keys && OrderFree(args) && Enumerates(o1, keys) && Enumerates(o2, keys)
        ensures FillInOrder(Text(ts), args, o1) == FillInOrder(Text(ts), args, o2)
      {
        FillsAll(ts, args, o1);
        FillsAll(ts, args, o2);
      }
    } else {
      var i :| 0 <= i < |ts| && !TokenFor(ts[i], ts[i + 1..], keys);
      assert TokenizedAt(ts[i], ts[i + 1..], keys);
      var k :| k in keys && !Inert(ts[i].text, k) && !Closed(ts[i + 1..], k, keys);
      assert TokenizedAt(ts[i + 1], ts[i + 1 + 1..], keys);
      CompletionIsSeen(ts, keys, i, k);
    }
  }

  /** Arguments that do not interfere with each other, and a template that shows their order. */
  lemma BracesAroundHole()
    ensures var args := map["a" := "b", "b" := "x"];
            && OrderFree(args)
            && FillInOrder("{{{{a}}}}", args, ["a", "b"]) == "x"
            && FillInOrder("{{{{a}}}}", args, ["b", "a"]) == "{{b}}"
  {
    hide FillInOrder, Fill, OrderFree;
    var args, text := map["a" := "b", "b" := "x"], "{{{{a}}}}";
    PlainPairIsOrderFree(args);
    BracesFilled(args);
    assert ["a", "b"] == [] + ["a"] + ["b"] && ["b", "a"] == [] + ["b"] + ["a"];
    LastTwo(text, args, [], "a", "b");
    LastTwo(text, args, [], "b", "a");
  }

  lemma PlainPairIsOrderFree(args: Args)
    requires args == map["a" := "b", "b" := "x"]
    ensures OrderFree(args)
  {
    CalmIsInert("b", "b");
    CalmIsInert("x", "a");
    assert NoInterference(args, "a", "b") && NoInterference(args, "b", "a");
  }

  lemma BracesFilled(args: Args)
    requires args == map["a" := "b", "b" := "x"]
    ensures Fill("{{{{a}}}}", "a", args) == "{{b}}" && Fill("{{b}}", "b", args) == "x"
    ensures Fill("{{{{a}}}}", "b", args) == "{{{{a}}}}"
  {
    hide Replace, Text;
    var ts := [Lit("{{"), Hole("a"), Lit("}}")];
    ThreeTokens("{{", Hole("a"), "}}");
    ThreeTokens("{{", Lit("b"), "}}");
    assert Placeholder("a") == "{{a}}" && Placeholder("b") == "{{b}}";
    assert "{{" + "{{a}}" + "}}" == "{{{{a}}}}" && "{{" + "b" + "}}" == "{{b}}";
    BracesReady(ts, "a");
    ReplaceFills(ts, "a", "b");
    assert FillAll(ts, map["a" := "b"]) == [Lit("{{"), Lit("b"), Lit("}}")];
    BracesReady(ts, "b");
    ReplaceFills(ts, "b", "x");
    assert FillAll(ts, map["b" := "x"]) == ts;
    ReplaceWhole("{{b}}", "x");
  }

  lemma ReplaceWhole(s: string, v: string)
    requires s != ""
    ensures Replace(s, s, v) == v
  {
    assert s[|s|..] == "";
  }

  lemma ThreeTokens(before: string, t: Token, after: string)
    ensures Text([Lit(before), t, Lit(after)]) == before + TokenText(t) + after
  {
    var ts := [Lit(before), t, Lit(after)];
    assert ts[1..] == [t, Lit(after)] && ts[1..][1..] == [Lit(after)] && ts[1..][1..][1..] == [];
    assert Text(ts[1..][1..]) == after + "" == after;
    assert Text(ts[1..]) == TokenText(t) + after;
    assert before + (TokenText(t) + after) == before + TokenText(t) + after;
  }

  lemma BracesReady(ts: seq<Token>, key: string)
    requires ts == [Lit("{{"), Hole("a"), Lit("}}")] && |key| == 1 && BraceFree(key)
    ensures Ready(ts, key)
  {
    hide Text;
    assert |Placeholder(key)| == 5;
    assert !Contains("{{", key);
    OpenHoleIsBarrier(ts[0 + 1..], key);
    CalmIsInert("}}", key);
  }
}
