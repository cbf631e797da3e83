/** The backfill that takes repeated HTML escaping off stored texts
    (alembic/versions/ampfix01_20260609_backfill_school_name_unescape.py). */
module HtmlUnescape {
  import opened Basics

  // ---- html.escape and html.unescape ---------------------------------------------------------

  function EscapeChar(c: char): string {
    if c == '&' then "&amp;" else if c == '<' then "&lt;" else if c == '>' then "&gt;"
    else if c == '"' then "&quot;" else if c == '\'' then "&#x27;" else [c]
  }

  predicate IsSpecial(c: char) {
    c in "&<>\"'"
  }

  function Escape(s: string): string {
    if s == "" then "" else EscapeChar(s[0]) + Escape(s[1..])
  }

  lemma EscapeText()
    ensures Escape("&<>") == "&amp;&lt;&gt;" && Escape("\"'a") == "&quot;&#x27;a"
  {
    assert "&<>"[1..] == "<>" && "<>"[1..] == ">" && ">"[1..] == "";
    assert "\"'a"[1..] == "'a" && "'a"[1..] == "a" && "a"[1..] == "";
  }

  /** A character reference found after an '&': how many characters it takes up, and the text
      it stands for. */
  datatype Reference = Reference(used: nat, text: string)

  // What html.unescape recognises at the front of the text after an '&'.
  type Decoder = string -> Option<Reference>

  // The five references that html.escape writes.
  function FiveReferences(t: string): Option<Reference> {
    if "amp;" <= t then Some(Reference(4, "&"))
    else if "lt;" <= t then Some(Reference(3, "<"))
    else if "gt;" <= t then Some(Reference(3, ">"))
    else if "quot;" <= t then Some(Reference(5, "\""))
    else if "#x27;" <= t then Some(Reference(5, "'"))
    else None
  }

  // html.unescape knows these five and many more.
  ghost predicate KnowsFive(ref: Decoder) {
    forall t :: FiveReferences(t).Some? ==> ref(t) == FiveReferences(t)
  }

  // No reference stands for a text longer than itself.
  predicate Fits(r: Option<Reference>, t: string) {
    r.Some? && 1 <= r.value.used <= |t| && |r.value.text| <= r.value.used
  }

  // One pass of html.unescape, left to right.
  function Unescape(ref: Decoder, s: string): string
    decreases |s|
  {
    if s == "" then ""
    else if s[0] != '&' || !Fits(ref(s[1..]), s[1..]) then [s[0]] + Unescape(ref, s[1..])
    else ref(s[1..]).value.text + Unescape(ref, s[1 + ref(s[1..]).value.used..])
  }

  lemma ReferenceIsFound(c: char, t: string)
    requires IsSpecial(c)
    ensures FiveReferences(EscapeChar(c)[1..] + t) == Some(Reference(|EscapeChar(c)| - 1, [c]))
  {
    var u := EscapeChar(c)[1..] + t;
    assert EscapeChar(c)[1..] <= u;
    assert u[0] == EscapeChar(c)[1];
  }

  lemma UnescapesReference(ref: Decoder, e: string, c: char, t: string)
    requires |e| > 1 && e[0] == '&' && ref(e[1..] + t) == Some(Reference(|e| - 1, [c]))
    ensures Unescape(ref, e + t) == [c] + Unescape(ref, t)
  {
    var s := e + t;
    assert s[0] == '&' && s[1..] == e[1..] + t && s[|e|..] == t;
  }

  lemma SpecialIsReference(ref: Decoder, c: char, t: string)
    requires KnowsFive(ref) && IsSpecial(c)
    ensures var e := EscapeChar(c); |e| > 1 && e[0] == '&' && ref(e[1..] + t) == Some(Reference(|e| - 1, [c]))
  {
    ReferenceIsFound(c, t);
    assert |EscapeChar(c)| > 1;
    assert ref(EscapeChar(c)[1..] + t) == FiveReferences(EscapeChar(c)[1..] + t);
  }

  lemma UnescapesPlain(ref: Decoder, c: char, t: string)
    requires c != '&'
    ensures Unescape(ref, [c] + t) == [c] + Unescape(ref, t)
  {
    var s := [c] + t;
    assert s[0] == c && s[1..] == t;
  }

  lemma UnescapesOne(ref: Decoder, c: char, t: string)
    requires KnowsFive(ref)
    ensures Unescape(ref, EscapeChar(c) + t) == [c] + Unescape(ref, t)
  {
    var e := EscapeChar(c);
    if IsSpecial(c) {
      SpecialIsReference(ref, c, t);
      UnescapesReference(ref, e, c, t);
    } else {
      assert e == [c];
      UnescapesPlain(ref, c, t);
    }
  }

  // Escaping is undone by unescaping, for every text.
  lemma {:induction false} RoundTrip(ref: Decoder, s: string)
    requires KnowsFive(ref)
    ensures Unescape(ref, Escape(s)) == s
  {
    if s != "" {
      UnescapesOne(ref, s[0], Escape(s[1..]));
      RoundTrip(ref, s[1..]);
    }
  }

  // A pass never makes a text longer, and shorter if it changes it.
  lemma {:induction false} ChangingShortens(ref: Decoder, s: string)
    ensures Unescape(ref, s) == s || |Unescape(ref, s)| < |s|
    decreases |s|
  {
    if s != "" {
      if s[0] != '&' || !Fits(ref(s[1..]), s[1..]) {
        ChangingShortens(ref, s[1..]);
        assert s == [s[0]] + s[1..];
      } else {
        ChangingShortens(ref, s[1 + ref(s[1..]).value.used..]);
      }
    }
  }

  // ---- layers of escaping, rounds of a pass ------------------------------------------------------

  type Pass = string -> string

  function Layers(escape: Pass, s: string, n: nat): string {
    if n == 0 then s else escape(Layers(escape, s, n - 1))
  }

  function Rounds(pass: Pass, s: string, n: nat): string
    decreases n
  {
    if n == 0 then s else Rounds(pass, pass(s), n - 1)
  }

  ghost predicate Undoes(pass: Pass, escape: Pass) {
    forall s :: pass(escape(s)) == s
  }

  ghost predicate Shortens(pass: Pass) {
    forall s :: pass(s) == s || |pass(s)| < |s|
  }

  lemma {:induction false} StableStays(pass: Pass, s: string, n: nat)
    requires pass(s) == s
    ensures Rounds(pass, s, n) == s
    decreases n
  {
    if n > 0 {
      StableStays(pass, s, n - 1);
    }
  }

  // Each round takes off one layer.
  lemma {:induction false} RoundsPeelLayers(pass: Pass, escape: Pass, s: string, n: nat, k: nat)
    requires Undoes(pass, escape)
    ensures Rounds(pass, Layers(escape, s, n), k) == if k <= n then Layers(escape, s, n - k) else Rounds(pass, s, k - n)
    decreases k
  {
    if k > 0 && n > 0 {
      RoundsPeelLayers(pass, escape, s, n - 1, k - 1);
    }
  }

  lemma {:induction false} RoundsShorten(pass: Pass, s: string, n: nat)
    requires Shortens(pass)
    ensures Rounds(pass, s, n) == s || |Rounds(pass, s, n)| < |s|
    ensures Rounds(pass, s, n) == s ==> n == 0 || pass(s) == s
    decreases n
  {
    if n > 0 {
      RoundsShorten(pass, pass(s), n - 1);
    }
  }

  lemma {:induction false} RoundsSettle(pass: Pass, s: string, n: nat)
    requires Shortens(pass) && |s| <= n
    ensures pass(Rounds(pass, s, n)) == Rounds(pass, s, n)
    decreases n
  {
    if pass(s) == s {
      StableStays(pass, s, n);
    } else {
      RoundsSettle(pass, pass(s), n - 1);
    }
  }

  // ---- this escape and this pass --------------------------------------------------------------------

  predicate HasSpecial(s: string) {
    exists c <- s :: IsSpecial(c)
  }

  lemma SpecialGrows(c: char)
    ensures if IsSpecial(c) then |EscapeChar(c)| > 1 && HasSpecial(EscapeChar(c)) else EscapeChar(c) == [c]
  {
    if IsSpecial(c) {
      assert EscapeChar(c)[0] == '&' && EscapeChar(c)[0] in EscapeChar(c);
    }
  }

  lemma HasSpecialAppend(a: string, b: string)
    ensures HasSpecial(a + b) <==> HasSpecial(a) || HasSpecial(b)
  {
    assert forall c :: c in a + b <==> c in a || c in b;
  }

  lemma {:induction false} EscapeGrows(s: string)
    ensures if HasSpecial(s) then |Escape(s)| > |s| && HasSpecial(Escape(s)) else Escape(s) == s
  {
    if s != "" {
      EscapeGrows(s[1..]);
      SpecialGrows(s[0]);
      assert s == [s[0]] + s[1..];
      HasSpecialAppend([s[0]], s[1..]);
      HasSpecialAppend(EscapeChar(s[0]), Escape(s[1..]));
    }
  }

  ghost predicate Grows(escape: Pass) {
    forall s {:trigger escape(s)} :: if HasSpecial(s) then |escape(s)| > |s| && HasSpecial(escape(s))
                                     else escape(s) == s
  }

  lemma {:induction false} LayersGrow(escape: Pass, s: string, n: nat)
    requires Grows(escape)
    ensures if HasSpecial(s) then |Layers(escape, s, n)| >= |s| + n && HasSpecial(Layers(escape, s, n))
            else Layers(escape, s, n) == s
    decreases n
  {
    if n > 0 {
      LayersGrow(escape, s, n - 1);
    }
  }

  lemma EscapeIsGood()
    ensures Grows(Escape)
  {
    forall s: string ensures if HasSpecial(s) then |Escape(s)| > |s| && HasSpecial(Escape(s)) else Escape(s) == s {
      EscapeGrows(s);
    }
  }

  function Unescaper(ref: Decoder): Pass {
    (s: string) => Unescape(ref, s)
  }

  lemma UnescaperIsGood(ref: Decoder)
    ensures Shortens(Unescaper(ref))
    ensures KnowsFive(ref) ==> Undoes(Unescaper(ref), Escape)
  {
    forall s: string ensures Unescaper(ref)(s) == s || |Unescaper(ref)(s)| < |s| {
      ChangingShortens(ref, s);
    }
    if KnowsFive(ref) {
      forall s: string ensures Unescaper(ref)(Escape(s)) == s {
        RoundTrip(ref, s);
      }
    }
  }

  // A text without references, escaped n times, comes back in `rounds` rounds if and only if
  // n is at most that or there is nothing to escape in it.
  lemma LayersComeOffExactlyWhenFew(ref: Decoder, s: string, n: nat, rounds: nat)
    requires KnowsFive(ref) && Unescape(ref, s) == s
    ensures Rounds(Unescaper(ref), Layers(Escape, s, n), rounds) == s <==> n <= rounds || !HasSpecial(s)
  {
    UnescaperIsGood(ref);
    RoundsPeelLayers(Unescaper(ref), Escape, s, n, rounds);
    if n <= rounds {
      StableStays(Unescaper(ref), s, rounds - n);
    } else {
      EscapeIsGood();
      LayersGrow(Escape, s, n - rounds);
    }
  }

  // A second run changes nothing if and only if one of the first `rounds` texts on the way
  // down already had nothing left to take off; in a text of at most `rounds` characters one has.
  lemma SecondRunExactly(ref: Decoder, s: string, rounds: nat)
    requires rounds > 0
    ensures var once := Rounds(Unescaper(ref), s, rounds);
            Rounds(Unescaper(ref), once, rounds) == once <==> Settles(Unescaper(ref), s, rounds)
    ensures |s| <= rounds ==> Settles(Unescaper(ref), s, rounds)
  {
    var pass := Unescaper(ref);
    UnescaperIsGood(ref);
    RoundsShorten(pass, Rounds(pass, s, rounds), rounds);
    SettledIsStable(pass, s, rounds);
    if |s| <= rounds {
      RoundsSettle(pass, s, rounds);
    }
  }

  // Some text on the way down, from `s` itself to the one after `rounds` passes, is stable.
  ghost predicate Settles(pass: Pass, s: string, rounds: nat) {
    exists k: nat :: k <= rounds && pass(Rounds(pass, s, k)) == Rounds(pass, s, k)
  }

  lemma {:induction false} SettledIsStable(pass: Pass, s: string, rounds: nat)
    ensures Settles(pass, s, rounds) <==> pass(Rounds(pass, s, rounds)) == Rounds(pass, s, rounds)
    ensures Settles(pass, s, rounds) ==>
              forall n: nat :: Rounds(pass, Rounds(pass, s, rounds), n) == Rounds(pass, s, rounds)
  {
    if Settles(pass, s, rounds) {
      var k: nat :| k <= rounds && pass(Rounds(pass, s, k)) == Rounds(pass, s, k);
      RoundsAppend(pass, s, k, rounds - k);
      StableStays(pass, Rounds(pass, s, k), rounds - k);
      forall n: nat ensures Rounds(pass, Rounds(pass, s, rounds), n) == Rounds(pass, s, rounds) {
        StableStays(pass, Rounds(pass, s, rounds), n);
      }
    }
  }

  lemma {:induction false} RoundsAppend(pass: Pass, s: string, a: nat, b: nat)
    ensures Rounds(pass, Rounds(pass, s, a), b) == Rounds(pass, s, a + b)
    decreases a
  {
    if a > 0 {
      RoundsAppend(pass, pass(s), a - 1, b);
    }
  }

  // A text without references, escaped n times: a second run changes nothing if and only if n
  // is at most the number of rounds or there is nothing to escape in it.
  lemma SecondRunOnLayers(ref: Decoder, t: string, n: nat, rounds: nat)
    requires KnowsFive(ref) && Unescape(ref, t) == t && rounds > 0
    ensures var once := Rounds(Unescaper(ref), Layers(Escape, t, n), rounds);
            Rounds(Unescaper(ref), once, rounds) == once <==> n <= rounds || !HasSpecial(t)
  {
    UnescaperIsGood(ref);
    SecondRunPeels(Unescaper(ref), Escape, t, n, rounds);
    if n > rounds {
      EscapeIsGood();
      LastLayer(Escape, t, n - rounds);
    }
  }

  lemma SecondRunPeels(pass: Pass, escape: Pass, t: string, n: nat, rounds: nat)
    requires Shortens(pass) && Undoes(pass, escape) && pass(t) == t && rounds > 0
    ensures var once := Rounds(pass, Layers(escape, t, n), rounds);
            Rounds(pass, once, rounds) == once <==>
            n <= rounds || Layers(escape, t, n - rounds) == Layers(escape, t, n - rounds - 1)
  {
    RoundsPeelLayers(pass, escape, t, n, rounds);
    if n <= rounds {
      StableStays(pass, t, rounds - n);
      StableStays(pass, t, rounds);
    } else {
      var left := Layers(escape, t, n - rounds);
      assert pass(left) == Layers(escape, t, n - rounds - 1);
      RoundsShorten(pass, left, rounds);
      if pass(left) == left {
        StableStays(pass, left, rounds);
      }
    }
  }

  lemma LastLayer(escape: Pass, t: string, n: nat)
    requires Grows(escape) && n > 0
    ensures Layers(escape, t, n) == Layers(escape, t, n - 1) <==> !HasSpecial(t)
  {
    LayersGrow(escape, t, n - 1);
    assert Layers(escape, t, n) == escape(Layers(escape, t, n - 1));
  }

  // ---- the code ---------------------------------------------------------------------------------

  const ROUNDS := 20

  // One turn of html.unescape at position i: the text it emits and where it goes on.
  function Turn(ref: Decoder, s: string, i: nat): (r: (string, nat))
    requires i < |s|
    ensures i < r.1 <= |s|
  {
    var found := ref(s[i + 1..]);
    if s[i] != '&' || !Fits(found, s[i + 1..]) then ([s[i]], i + 1) else (found.value.text, i + 1 + found.value.used)
  }

  lemma UnescapeTurns(ref: Decoder, s: string, i: nat)
    requires i < |s|
    ensures Unescape(ref, s[i..]) == Turn(ref, s, i).0 + Unescape(ref, s[Turn(ref, s, i).1..])
  {
    var t := s[i..];
    assert t[1..] == s[i + 1..];
    var found := ref(s[i + 1..]);
    assert Fits(found, s[i + 1..]) ==> t[1 + found.value.used..] == s[i + 1 + found.value.used..];
  }

  // html.unescape
  method UnescapePass(ref: Decoder, s: string) returns (r: string)
    ensures r == Unescape(ref, s)
  {
    r := "";
    var i := 0;
    assert s[0..] == s;
    while i < |s|
      invariant i <= |s| && r + Unescape(ref, s[i..]) == Unescape(ref, s)
    {
      UnescapeTurns(ref, s, i);
      Associates(r, Turn(ref, s, i).0, Unescape(ref, s[Turn(ref, s, i).1..]));
      r, i := r + Turn(ref, s, i).0, Turn(ref, s, i).1;
    }
  }

  lemma Associates(a: string, b: string, c: string)
    ensures (a + b) + c == a + (b + c)
  {
  }

  // What `_unescape_stable` makes of a text.
  function Stable(ref: Decoder): Pass {
    (s: string) => Rounds(Unescaper(ref), s, ROUNDS)
  }

  // `_unescape_stable`: stops early when a round changes nothing.
  method UnescapeStable(ref: Decoder, value: string) returns (r: string)
    ensures r == Stable(ref)(value)
  {
    r := value;
    for i := 0 to ROUNDS
      invariant Rounds(Unescaper(ref), r, ROUNDS - i) == Rounds(Unescaper(ref), value, ROUNDS)
    {
      var cur := UnescapePass(ref, r);
      if cur == r {
        StableStays(Unescaper(ref), r, ROUNDS - i);
        return;
      }
      r := cur;
    }
  }

  // An '&' escaped 21 times is not yet clean after the first run; the second changes it.
  lemma TwentyOneLayersTakeTwoRuns(ref: Decoder)
    requires KnowsFive(ref)
    ensures var s := Layers(Escape, "&", 21);
            Stable(ref)(s) == "&amp;" && Stable(ref)(Stable(ref)(s)) == "&"
  {
    var pass := Unescaper(ref);
    UnescaperIsGood(ref);
    RoundsPeelLayers(pass, Escape, "&", 21, ROUNDS);
    assert Layers(Escape, "&", 1) == Escape("&") == "&amp;" + Escape("") == "&amp;";
    RoundsPeelLayers(pass, Escape, "&", 1, ROUNDS);
    StableStays(pass, "&", ROUNDS - 1);
  }

  lemma StableShortens(ref: Decoder)
    ensures Shortens(Stable(ref))
  {
    UnescaperIsGood(ref);
    forall s: string ensures Stable(ref)(s) == s || |Stable(ref)(s)| < |s| {
      RoundsShorten(Unescaper(ref), s, ROUNDS);
    }
  }

  // A JSON value as the backfill tells them apart, and an entry of the list.
  datatype Value = Text(text: string) | NoText(id: int)
  datatype Item = Dict(fields: map<string, Value>) | NoDict(id: int)

  function CleanField(clean: Pass, d: map<string, Value>, f: string): map<string, Value> {
    if f in d && d[f].Text? then d[f := Text(clean(d[f].text))] else d
  }

  function CleanFields(clean: Pass, d: map<string, Value>, fields: seq<string>): map<string, Value> {
    if fields == [] then d
    else CleanField(clean, CleanFields(clean, d, fields[..|fields| - 1]), fields[|fields| - 1])
  }

  // What becomes of an entry: one that is no dict stays; of a dict, every text is unescaped 20
  // times for each time its field is listed, and all else stays.
  predicate IsCleaned(ref: Decoder, was: Item, now: Item, fields: seq<string>) {
    match was
    case NoDict(_) => now == was
    case Dict(d) =>
      now.Dict? && now.fields.Keys == d.Keys
      && forall f <- d :: now.fields[f] ==
           if d[f].Text? then Text(Rounds(Unescaper(ref), d[f].text, ROUNDS * multiset(fields)[f])) else d[f]
  }

  // Some listed field holds a text that unescaping changes.
  predicate NeedsCleaning(ref: Decoder, item: Item, fields: seq<string>) {
    item.Dict? && exists f <- fields :: IsLayered(ref, item.fields, f)
  }

  predicate IsLayered(ref: Decoder, d: map<string, Value>, f: string) {
    f in d && d[f].Text? && Unescape(ref, d[f].text) != d[f].text
  }

  // Cleaning only ever shortens texts.
  predicate NoLonger(d: map<string, Value>, e: map<string, Value>) {
    && d.Keys == e.Keys
    && forall f <- d :: d[f] == e[f] || (d[f].Text? && e[f].Text? && |e[f].text| < |d[f].text|)
  }

  lemma CleaningShortens(clean: Pass, d: map<string, Value>, e: map<string, Value>, f: string)
    requires Shortens(clean) && NoLonger(d, e)
    ensures NoLonger(d, CleanField(clean, e, f))
    ensures CleanField(clean, e, f) != e ==> CleanField(clean, e, f) != d
  {
    if f in e && e[f].Text? {
      assert d[f].Text?;
      assert CleanField(clean, e, f)[f].text == clean(e[f].text);
      if clean(e[f].text) == e[f].text { assert CleanField(clean, e, f) == e; }
    }
  }

  // Field by field, 20 rounds for each time it is listed.
  lemma {:induction false} FieldCleaned(ref: Decoder, d: map<string, Value>, fields: seq<string>, f: string)
    requires f in d
    ensures var e := CleanFields(Stable(ref), d, fields);
            e.Keys == d.Keys
            && e[f] == if d[f].Text? then Text(Rounds(Unescaper(ref), d[f].text, ROUNDS * multiset(fields)[f]))
                       else d[f]
    decreases |fields|
  {
    if fields != [] {
      var n := |fields| - 1;
      FieldCleaned(ref, d, fields[..n], f);
      TimesListed(fields, f);
      var e := CleanFields(Stable(ref), d, fields[..n]);
      assert CleanFields(Stable(ref), d, fields) == CleanField(Stable(ref), e, fields[n]);
      if d[f].Text? {
        RoundsAppend(Unescaper(ref), d[f].text, ROUNDS * multiset(fields[..n])[f], ROUNDS);
      }
    }
  }

  lemma TimesListed(fields: seq<string>, f: string)
    requires fields != []
    ensures var n := |fields| - 1;
            multiset(fields)[f] == multiset(fields[..n])[f] + if fields[n] == f then 1 else 0
  {
    assert fields == fields[..|fields| - 1] + [fields[|fields| - 1]];
  }

  lemma FieldsCleaned(ref: Decoder, d: map<string, Value>, fields: seq<string>)
    ensures IsCleaned(ref, Dict(d), Dict(CleanFields(Stable(ref), d, fields)), fields)
  {
    forall f <- d
      ensures var e := CleanFields(Stable(ref), d, fields);
              f in e && e[f] == if d[f].Text? then Text(Rounds(Unescaper(ref), d[f].text, ROUNDS * multiset(fields)[f]))
                                else d[f]
    {
      FieldCleaned(ref, d, fields, f);
    }
    SameFields(Stable(ref), d, fields);
  }

  lemma {:induction false} SameFields(clean: Pass, d: map<string, Value>, fields: seq<string>)
    ensures CleanFields(clean, d, fields).Keys == d.Keys
    decreases |fields|
  {
    if fields != [] {
      SameFields(clean, d, fields[..|fields| - 1]);
    }
  }

  lemma ChangedExactlyWhenNeeded(ref: Decoder, was: Item, now: Item, fields: seq<string>)
    requires IsCleaned(ref, was, now, fields)
    ensures now != was <==> NeedsCleaning(ref, was, fields)
  {
    if was.Dict? {
      UnescaperIsGood(ref);
      forall f <- was.fields ensures now.fields[f] != was.fields[f] <==> f in fields && IsLayered(ref, was.fields, f) {
        if was.fields[f].Text? {
          var text, n := was.fields[f].text, ROUNDS * multiset(fields)[f];
          RoundsShorten(Unescaper(ref), text, n);
          if Unescape(ref, text) == text {
            StableStays(Unescaper(ref), text, n);
          }
        }
      }
      if now != was {
        var f :| f in was.fields && now.fields[f] != was.fields[f];
      }
    }
  }

  // A listed text with at most 20 layers is stored without any.
  lemma FewLayersAreStoredClean(ref: Decoder, was: Item, now: Item, fields: seq<string>, f: string, t: string, n: nat)
    requires KnowsFive(ref) && IsCleaned(ref, was, now, fields) && was.Dict? && f in fields && f in was.fields
    requires was.fields[f] == Text(Layers(Escape, t, n)) && Unescape(ref, t) == t && n <= ROUNDS
    ensures now.fields[f] == Text(t)
  {
    LayersComeOffExactlyWhenFew(ref, t, n, ROUNDS * multiset(fields)[f]);
  }

  // One entry of the list.
  method CleanEntry(ref: Decoder, was: map<string, Value>, fields: seq<string>)
    returns (d: map<string, Value>, changed: bool)
    ensures d == CleanFields(Stable(ref), was, fields)
    ensures changed <==> d != was
  {
    d, changed := was, false;
    StableShortens(ref);
    for n := 0 to |fields|
      invariant d == CleanFields(Stable(ref), was, fields[..n]) && NoLonger(was, d)
      invariant changed <==> d != was
    {
      var f := fields[n];
      assert fields[..n + 1][..n] == fields[..n];
      CleaningShortens(Stable(ref), was, d, f);
      if f in d && d[f].Text? {
        var new' := UnescapeStable(ref, d[f].text);
        if new' != d[f].text {
          d, changed := d[f := Text(new')], true;
        } else {
          assert d == d[f := Text(new')];
        }
      }
    }
    assert fields[..|fields|] == fields;
  }

  method CleanOne(ref: Decoder, item: Item, fields: seq<string>) returns (cleaned: Item, changed: bool)
    ensures IsCleaned(ref, item, cleaned, fields) && (changed <==> NeedsCleaning(ref, item, fields))
  {
    cleaned, changed := item, false;
    if item.Dict? {
      var d;
      d, changed := CleanEntry(ref, item.fields, fields);
      cleaned := Dict(d);
      FieldsCleaned(ref, item.fields, fields);
      ChangedExactlyWhenNeeded(ref, item, cleaned, fields);
    }
  }

  // `_clean_list`
  method CleanList(ref: Decoder, items: array<Item>, fields: seq<string>) returns (changed: bool)
    modifies items
    ensures forall i :: 0 <= i < items.Length ==> IsCleaned(ref, old(items[i]), items[i], fields)
    ensures changed <==> exists i :: 0 <= i < items.Length && NeedsCleaning(ref, old(items[i]), fields)
  {
    changed := false;
    ghost var was := items[..];
    for n := 0 to items.Length
      invariant forall i :: 0 <= i < n ==> IsCleaned(ref, was[i], items[i], fields)
      invariant forall i :: n <= i < items.Length ==> items[i] == was[i]
      invariant changed <==> exists i :: 0 <= i < n && NeedsCleaning(ref, was[i], fields)
    {
      var item, some := CleanOne(ref, items[n], fields);
      items[n] := item;
      changed := changed || some;
    }
  }
}
