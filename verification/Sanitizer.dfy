/** The audit log's sanitizer on JSON values: removal of every member with a sensitive key,
    at any depth, and nothing else. */
module Sanitizer {
  import opened Basics

  /** An object keeps its members in enumeration order. */
  datatype Json =
    | Undefined
    | Null
    | Leaf(text: string)
    | Array(elements: seq<Json>)
    | Object(members: seq<Member>)

  datatype Member = Member(key: string, value: Json)

  const SENSITIVE := ["password", "secret", "token", "authorization", "hash"]

  /** Only ASCII letters fold: the pattern is case-insensitive without the unicode flag. */
  function Lower(c: char): char {
    if 'A' <= c <= 'Z' then c - 'A' + 'a' else c
  }

  predicate MatchesAt(key: string, word: string, i: nat) {
    i + |word| <= |key| && forall j :: 0 <= j < |word| ==> Lower(key[i + j]) == word[j]
  }

  predicate Sensitive(key: string) {
    exists w, i :: 0 <= w < |SENSITIVE| && 0 <= i <= |key| && MatchesAt(key, SENSITIVE[w], i)
  }

  // ---- which keys are sensitive ----

  /** v is a word in any mix of cases, given in lower and in upper case. */
  predicate Variant(v: string, lower: string, upper: string)
    requires |lower| == |upper|
  {
    |v| == |lower| && forall i :: 0 <= i < |v| ==> v[i] == lower[i] || v[i] == upper[i]
  }

  predicate Secret(v: string) {
    || Variant(v, "password", "PASSWORD")
    || Variant(v, "secret", "SECRET")
    || Variant(v, "token", "TOKEN")
    || Variant(v, "authorization", "AUTHORIZATION")
    || Variant(v, "hash", "HASH")
  }

  lemma MatchIsVariant(key: string, lower: string, upper: string, i: nat)
    requires |lower| == |upper| && i <= |key|
    requires forall j :: 0 <= j < |lower| ==> 'a' <= lower[j] <= 'z' && upper[j] == lower[j] - 'a' + 'A'
    ensures MatchesAt(key, lower, i) <==> i + |lower| <= |key| && Variant(key[i..i + |lower|], lower, upper)
  {
    if i + |lower| <= |key| {
      var v := key[i..i + |lower|];
      forall j | 0 <= j < |lower|
        ensures v[j] == key[i + j]
        ensures Lower(v[j]) == lower[j] <==> v[j] == lower[j] || v[j] == upper[j]
      {
      }
    }
  }

  /** The word matches somewhere in the key exactly when a variant of it is a part of the key. */
  lemma WordMatches(key: string, lower: string, upper: string)
    requires |lower| == |upper|
    requires forall j :: 0 <= j < |lower| ==> 'a' <= lower[j] <= 'z' && upper[j] == lower[j] - 'a' + 'A'
    ensures (exists i :: 0 <= i <= |key| && MatchesAt(key, lower, i)) <==>
            (exists i, j :: 0 <= i <= j <= |key| && Variant(key[i..j], lower, upper))
  {
    if i :| 0 <= i <= |key| && MatchesAt(key, lower, i) {
      MatchIsVariant(key, lower, upper, i);
      assert Variant(key[i..i + |lower|], lower, upper);
    }
    if i, j :| 0 <= i <= j <= |key| && Variant(key[i..j], lower, upper) {
      assert j == i + |lower|;
      MatchIsVariant(key, lower, upper, i);
    }
  }

  lemma AllWordsMatch(key: string)
    ensures Sensitive(key) <==>
      || (exists i :: 0 <= i <= |key| && MatchesAt(key, "password", i))
      || (exists i :: 0 <= i <= |key| && MatchesAt(key, "secret", i))
      || (exists i :: 0 <= i <= |key| && MatchesAt(key, "token", i))
      || (exists i :: 0 <= i <= |key| && MatchesAt(key, "authorization", i))
      || (exists i :: 0 <= i <= |key| && MatchesAt(key, "hash", i))
  {
    assert SENSITIVE[0] == "password" && SENSITIVE[1] == "secret" && SENSITIVE[2] == "token";
    assert SENSITIVE[3] == "authorization" && SENSITIVE[4] == "hash" && |SENSITIVE| == 5;
    if w, i :| 0 <= w < |SENSITIVE| && 0 <= i <= |key| && MatchesAt(key, SENSITIVE[w], i) {
      assert w == 0 || w == 1 || w == 2 || w == 3 || w == 4;
    }
  }

  /** A key is sensitive exactly when some part of it is one of the five words, in any mix of
      cases. */
  lemma SensitiveExactly(key: string)
    ensures Sensitive(key) <==> exists i, j :: 0 <= i <= j <= |key| && Secret(key[i..j])
  {
    AllWordsMatch(key);
    WordMatches(key, "password", "PASSWORD");
    WordMatches(key, "secret", "SECRET");
    WordMatches(key, "token", "TOKEN");
    WordMatches(key, "authorization", "AUTHORIZATION");
    WordMatches(key, "hash", "HASH");
  }

  lemma SensitiveAnywhere(pre: string, v: string, post: string)
    requires Secret(v)
    ensures Sensitive(pre + v + post)
  {
    var key := pre + v + post;
    assert key[|pre|..|pre| + |v|] == v;
    SensitiveExactly(key);
  }

  function Sanitize(v: Json): Json {
    match v
    case Array(elements) => Array(SanitizeAll(elements))
    case Object(members) => Object(SanitizeMembers(members))
    case _ => v
  }

  function SanitizeAll(elements: seq<Json>): (r: seq<Json>)
    ensures |r| == |elements|
    ensures forall i :: 0 <= i < |r| ==> r[i] == Sanitize(elements[i])
  {
    if elements == [] then [] else [Sanitize(elements[0])] + SanitizeAll(elements[1..])
  }

  function SanitizeMembers(members: seq<Member>): seq<Member> {
    if members == [] then []
    else
      var rest := SanitizeMembers(members[1..]);
      if Sensitive(members[0].key) then rest
      else [Member(members[0].key, Sanitize(members[0].value))] + rest
  }

  // ---- paths ----

  datatype Segment = Key(key: string) | Index(index: nat)

  function Find(members: seq<Member>, key: string): Option<Json> {
    if members == [] then None
    else if members[0].key == key then Some(members[0].value)
    else Find(members[1..], key)
  }

  function Child(v: Json, segment: Segment): Option<Json> {
    match segment
    case Key(key) => if v.Object? then Find(v.members, key) else None
    case Index(i) => if v.Array? && i < |v.elements| then Some(v.elements[i]) else None
  }

  /** The value at the end of the path, if the path exists in v. */
  function At(v: Json, path: seq<Segment>): Option<Json>
    decreases |path|
  {
    if path == [] then Some(v)
    else
      match Child(v, path[0])
      case None => None
      case Some(child) => At(child, path[1..])
  }

  predicate CrossesSensitive(path: seq<Segment>) {
    exists i :: 0 <= i < |path| && path[i].Key? && Sensitive(path[i].key)
  }

  lemma {:induction false} FindSanitized(members: seq<Member>, key: string)
    ensures Find(SanitizeMembers(members), key) ==
            if Sensitive(key) then None
            else match Find(members, key) case None => None case Some(v) => Some(Sanitize(v))
  {
    if members != [] {
      FindSanitized(members[1..], key);
      var rest := SanitizeMembers(members[1..]);
      if !Sensitive(members[0].key) {
        assert SanitizeMembers(members)[1..] == rest;
      }
    }
  }

  /** What is at a path of the sanitized value is the sanitized value at that path; a path is
      cut off exactly when it crosses a sensitive key. */
  lemma {:induction false} SanitizeAt(v: Json, path: seq<Segment>)
    ensures At(Sanitize(v), path) ==
            if CrossesSensitive(path) then None
            else match At(v, path) case None => None case Some(w) => Some(Sanitize(w))
    decreases |path|
  {
    if path != [] {
      var first, rest := path[0], path[1..];
      assert CrossesSensitive(path) <==> (first.Key? && Sensitive(first.key)) || CrossesSensitive(rest) by {
        if CrossesSensitive(rest) {
          var i :| 0 <= i < |rest| && rest[i].Key? && Sensitive(rest[i].key);
          assert path[i + 1] == rest[i];
        }
        if CrossesSensitive(path) {
          var i :| 0 <= i < |path| && path[i].Key? && Sensitive(path[i].key);
          assert i == 0 || rest[i - 1] == path[i];
        }
      }
      if v.Object? && first.Key? { FindSanitized(v.members, first.key); }
      if Child(v, first).Some? { SanitizeAt(Child(v, first).value, rest); }
    }
  }

  predicate Exists(v: Json, path: seq<Segment>) {
    At(v, path).Some?
  }

  predicate SameNode(v: Json, w: Json) {
    match v
    case Array(elements) => w.Array? && |w.elements| == |elements|
    case Object(_) => w.Object?
    case _ => w == v
  }

  /** Paths of the result are the paths of the input that cross no sensitive key, with equal
      leaves and array lengths along them. */
  lemma PathsExactly(v: Json, path: seq<Segment>)
    ensures Exists(Sanitize(v), path) <==> Exists(v, path) && !CrossesSecret(path)
    ensures Exists(Sanitize(v), path) ==> SameNode(At(v, path).value, At(Sanitize(v), path).value)
  {
    SanitizeAt(v, path);
    CrossesExactly(path);
  }

  /** Some key of the path contains one of the five words. */
  ghost predicate CrossesSecret(path: seq<Segment>) {
    exists i, from, to ::
      && 0 <= i < |path| && path[i].Key? && 0 <= from <= to <= |path[i].key|
      && Secret(path[i].key[from..to])
  }

  lemma CrossesExactly(path: seq<Segment>)
    ensures CrossesSensitive(path) <==> CrossesSecret(path)
  {
    forall i | 0 <= i < |path| && path[i].Key?
      ensures Sensitive(path[i].key) <==>
              exists from, to :: 0 <= from <= to <= |path[i].key| && Secret(path[i].key[from..to])
    {
      SensitiveExactly(path[i].key);
    }
  }

  // ---- fixed points ----

  /** No sensitive key at any depth. */
  predicate Clean(v: Json) {
    match v
    case Array(elements) => forall i :: 0 <= i < |elements| ==> Clean(elements[i])
    case Object(members) => forall i :: 0 <= i < |members| ==> !Sensitive(members[i].key) && Clean(members[i].value)
    case _ => true
  }

  lemma {:induction false} SanitizedMembersClean(members: seq<Member>)
    requires forall i :: 0 <= i < |members| ==> Clean(Sanitize(members[i].value))
    ensures Clean(Object(SanitizeMembers(members)))
  {
    if members != [] { SanitizedMembersClean(members[1..]); }
  }

  lemma {:induction false} SanitizedClean(v: Json)
    ensures Clean(Sanitize(v))
  {
    match v
    case Array(elements) =>
      forall i | 0 <= i < |elements| ensures Clean(Sanitize(elements[i])) { SanitizedClean(elements[i]); }
    case Object(members) =>
      forall i | 0 <= i < |members| ensures Clean(Sanitize(members[i].value)) { SanitizedClean(members[i].value); }
      SanitizedMembersClean(members);
    case _ =>
  }

  lemma {:induction false} CleanMembersFixed(members: seq<Member>)
    requires forall i :: 0 <= i < |members| ==>
        !Sensitive(members[i].key) && Sanitize(members[i].value) == members[i].value
    ensures SanitizeMembers(members) == members
  {
    if members != [] { CleanMembersFixed(members[1..]); }
  }

  lemma {:induction false} CleanFixed(v: Json)
    requires Clean(v)
    ensures Sanitize(v) == v
  {
    match v
    case Array(elements) =>
      forall i | 0 <= i < |elements| ensures Sanitize(elements[i]) == elements[i] { CleanFixed(elements[i]); }
    case Object(members) =>
      forall i | 0 <= i < |members|
        ensures Sanitize(members[i].value) == members[i].value
      {
        CleanFixed(members[i].value);
      }
      CleanMembersFixed(members);
    case _ =>
  }

  /** The result is clean, sanitizing is idempotent, and exactly the clean values are left
      as they are. */
  lemma FixedPoints(v: Json)
    ensures Clean(Sanitize(v))
    ensures Sanitize(Sanitize(v)) == Sanitize(v)
    ensures Sanitize(v) == v <==> Clean(v)
  {
    SanitizedClean(v);
    CleanFixed(Sanitize(v));
    if Clean(v) { CleanFixed(v); }
  }
}
