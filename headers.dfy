/** Handshake headers: the case-insensitive header dictionary both bindings
    build from an auth token, and the header fields of the iOS request. */
module Headers {
  import opened WebSocketContract

  datatype Header = Header(name: string, value: string)

  const AuthorizationName: string := "Authorization"

  function FoldChar(c: char): char {
    if 'A' <= c <= 'Z' then (c as int - 'A' as int + 'a' as int) as char else c
  }

  /** The letter-case-folded form of a header name. */
  function Fold(s: string): string {
    seq(|s|, i requires 0 <= i < |s| => FoldChar(s[i]))
  }

  /** Two names denote the same header when they differ only in letter case. */
  predicate SameName(a: string, b: string) {
    Fold(a) == Fold(b)
  }

  /** Case-insensitive lookup: the value of the first entry with that name. */
  function Lookup(entries: seq<Header>, name: string): (r: Option<string>) {
    if entries == [] then None
    else if SameName(entries[0].name, name) then Some(entries[0].value)
    else Lookup(entries[1..], name)
  }

  /** No two entries share a name, as in a dictionary with a case-insensitive comparer. */
  predicate DistinctNames(entries: seq<Header>) {
    forall i, j :: 0 <= i < j < |entries| ==> !SameName(entries[i].name, entries[j].name)
  }

  /** The dictionary the auth-token overload of Open builds: empty without a
      token, otherwise the single Authorization entry. */
  function AuthHeaders(authToken: Option<string>): (h: seq<Header>)
    ensures DistinctNames(h)
    ensures authToken.None? ==> h == []
    ensures authToken.Some? ==> |h| == 1
    ensures authToken.Some? ==> forall name ::
      Lookup(h, name) == if SameName(name, AuthorizationName) then Some(authToken.value) else None
  {
    if authToken.Some? then [Header(AuthorizationName, authToken.value)] else []
  }

  /** Assigns header field `name` of a request: the field already present
      under that name, in any letter case, gets the new value; otherwise
      the field is added. */
  function SetField(fields: seq<Header>, name: string, value: string): (r: seq<Header>)
    ensures forall n :: Lookup(r, n) == if SameName(n, name) then Some(value) else Lookup(fields, n)
  {
    if fields == [] then [Header(name, value)]
    else if SameName(fields[0].name, name) then [Header(name, value)] + fields[1..]
    else [fields[0]] + SetField(fields[1..], name, value)
  }

  /** The request fields left by assigning `entries` in order. */
  function Assigned(entries: seq<Header>): (r: seq<Header>) {
    if entries == [] then []
    else
      var last := entries[|entries| - 1];
      SetField(Assigned(entries[..|entries| - 1]), last.name, last.value)
  }

  /** The value of the last entry named `name`: the one that wins when
      entries are assigned one after the other. */
  function Latest(entries: seq<Header>, name: string): (r: Option<string>) {
    if entries == [] then None
    else if SameName(entries[|entries| - 1].name, name) then Some(entries[|entries| - 1].value)
    else Latest(entries[..|entries| - 1], name)
  }

  /** Assigning the entries one by one leaves every name with the value of its last entry. */
  lemma {:induction false} AssignedKeepsLatest(entries: seq<Header>, name: string)
    ensures Lookup(Assigned(entries), name) == Latest(entries, name)
  {
    if entries != [] {
      AssignedKeepsLatest(entries[..|entries| - 1], name);
    }
  }

  /** With no entry of that name, nothing is assigned to it. */
  lemma {:induction false} LatestAbsent(entries: seq<Header>, name: string)
    requires forall i :: 0 <= i < |entries| ==> !SameName(entries[i].name, name)
    ensures Latest(entries, name) == None
  {
    if entries != [] {
      LatestAbsent(entries[..|entries| - 1], name);
    }
  }

  /** Latest seen from the front: a later entry wins over the first one. */
  lemma {:induction false} LatestCons(first: Header, rest: seq<Header>, name: string)
    ensures Latest([first] + rest, name) ==
      if Latest(rest, name).Some? then Latest(rest, name)
      else if SameName(first.name, name) then Some(first.value)
      else None
  {
    var s := [first] + rest;
    if rest != [] {
      assert s[|s| - 1] == rest[|rest| - 1];
      assert s[..|s| - 1] == [first] + rest[..|rest| - 1];
      LatestCons(first, rest[..|rest| - 1], name);
    } else {
      assert s == [first];
    }
  }

  /** For a dictionary (distinct names) the last entry of a name is its only
      one, so the request carries exactly the dictionary's lookup. */
  lemma {:induction false} DistinctLatestIsLookup(entries: seq<Header>, name: string)
    requires DistinctNames(entries)
    ensures Latest(entries, name) == Lookup(entries, name)
  {
    if entries != [] {
      var rest := entries[1..];
      assert entries == [entries[0]] + rest;
      assert DistinctNames(rest) by {
        forall i, j | 0 <= i < j < |rest| ensures !SameName(rest[i].name, rest[j].name) {
          assert rest[i] == entries[i + 1] && rest[j] == entries[j + 1];
        }
      }
      DistinctLatestIsLookup(rest, name);
      LatestCons(entries[0], rest, name);
      if SameName(entries[0].name, name) {
        forall i | 0 <= i < |rest| ensures !SameName(rest[i].name, name) {
          assert rest[i] == entries[i + 1];
        }
        LatestAbsent(rest, name);
      }
    }
  }
}
