/**
 * The generic resource store of the client (app/src/redux/api.ts): request
 * and status vocabularies, the 15 action types per resource, the reducer that
 * folds successful responses into a name-keyed entity table, the selectors,
 * and the saga filter that turns gRPC actions into resource actions.
 */
module ApiStore {
  import opened Wrappers
  import opened Text
  import opened Messages
  import GrpcStore

  datatype RequestKind = List | Get | Create | Update | Destroy
  datatype StatusKind = Requested | Succeeded | Failed
  datatype Resource = Organizations | Projects | Sites

  /** The string values of the `Request` enum. */
  function RequestName(q: RequestKind): string
  {
    match q
    case List => "LIST"
    case Get => "GET"
    case Create => "CREATE"
    case Update => "UPDATE"
    case Destroy => "DESTROY"
  }

  /** The keys of the `Request` enum, which `get(Request, key)` looks up. */
  function RequestKey(q: RequestKind): string
  {
    match q
    case List => "list"
    case Get => "get"
    case Create => "create"
    case Update => "update"
    case Destroy => "destroy"
  }

  function StatusName(s: StatusKind): string
  {
    match s
    case Requested => "REQUESTED"
    case Succeeded => "SUCCEEDED"
    case Failed => "FAILED"
  }

  /** The string values of the `Resource` enum. */
  function ResourceName(r: Resource): string
  {
    match r
    case Organizations => "organizations"
    case Projects => "projects"
    case Sites => "sites"
  }

  // ---------------------------------------------------------------------------
  // Word splitting (lodash `snakeCase`) and English number (`pluralize`)

  predicate IsWord(w: string)
  {
    |w| > 0 && forall i :: 0 <= i < |w| ==> IsAlnum(w[i])
  }

  predicate IsLetter(c: char) { IsUpper(c) || IsLower(c) }

  /**
   * Where lodash `words` ends a word between the characters `last` and `c`:
   * before an upper-case letter that follows a lower-case letter or a digit,
   * and between a letter and a digit in either order.
   */
  predicate WordBreak(last: char, c: char)
  {
    (IsUpper(c) && (IsLower(last) || IsDigit(last)))
    || (IsDigit(c) && IsLetter(last))
    || (IsLetter(c) && IsDigit(last))
  }

  /**
   * The words of an ASCII identifier, as lodash `words` finds them: characters
   * other than letters and digits separate words, and a new word starts at
   * every `WordBreak`.
   */
  function WordsFrom(s: string, current: string, done: seq<string>): (ws: seq<string>)
    requires current == "" || IsWord(current)
    requires forall i :: 0 <= i < |done| ==> IsWord(done[i])
    ensures forall i :: 0 <= i < |ws| ==> IsWord(ws[i])
    decreases |s|
  {
    var flushed := if current == "" then done else done + [current];
    if |s| == 0 then flushed
    else if !IsAlnum(s[0]) then WordsFrom(s[1..], "", flushed)
    else if current != "" && WordBreak(current[|current| - 1], s[0]) then
      WordsFrom(s[1..], [s[0]], flushed)
    else WordsFrom(s[1..], current + [s[0]], done)
  }

  function Words(s: string): (ws: seq<string>)
    ensures forall i :: 0 <= i < |ws| ==> IsWord(ws[i])
  {
    WordsFrom(s, "", [])
  }

  function LowerAll(ws: seq<string>): (ls: seq<string>)
    ensures |ls| == |ws|
    ensures forall i :: 0 <= i < |ws| ==> ls[i] == Lower(ws[i])
  {
    seq(|ws|, i requires 0 <= i < |ws| => Lower(ws[i]))
  }

  /** lodash `snakeCase`: the lower-cased words joined by `_`. */
  function SnakeCase(s: string): string
  {
    Join(LowerAll(Words(s)), "_")
  }

  predicate EndsWithS(w: string) { |w| > 0 && w[|w| - 1] == 's' }

  /** `pluralize.plural` on the regular nouns used here. */
  function Plural(w: string): string
  {
    if EndsWithS(w) then w else w + "s"
  }

  /** `pluralize.singular` on the regular nouns used here. */
  function Singular(w: string): string
  {
    if EndsWithS(w) then w[..|w| - 1] else w
  }

  /** Splitting the snake-cased name on `_` gives back its lower-cased words, or `[""]` when it has none. */
  lemma SnakeTokens(m: string)
    ensures Split(SnakeCase(m), '_') == if Words(m) == [] then [""] else LowerAll(Words(m))
  {
    var ws := LowerAll(Words(m));
    if Words(m) != [] {
      forall i | 0 <= i < |ws| ensures '_' !in ws[i] {
        assert IsWord(Words(m)[i]);
      }
      SplitJoin(ws, '_');
    }
  }

  /** A single lower-case word is its own snake case: the resource names are unchanged by `snakeCase`. */
  lemma SnakeCaseOfResource(r: Resource)
    ensures SnakeCase(ResourceName(r)) == ResourceName(r)
  {
    var n := ResourceName(r);
    assert forall i :: 0 <= i < |n| ==> IsLower(n[i]) by {
      match r case Organizations => case Projects => case Sites =>
    }
    WordsOfLowerCase(n, "", []);
    assert "" + n == n;
    assert Words(n) == [n];
    assert Lower(n) == n;
  }

  /** A run of lower-case letters continues the current word. */
  lemma {:induction false} WordsOfLowerCase(s: string, current: string, done: seq<string>)
    requires forall i :: 0 <= i < |s| ==> IsLower(s[i])
    requires current == "" || (IsWord(current) && !IsDigit(current[|current| - 1]))
    requires forall i :: 0 <= i < |done| ==> IsWord(done[i])
    requires current + s != ""
    ensures WordsFrom(s, current, done) == done + [current + s]
    decreases |s|
  {
    if |s| > 0 {
      assert IsWord(current + [s[0]]);
      assert forall i :: 0 <= i < |s[1..]| ==> IsLower(s[1..][i]);
      assert !IsUpper(s[0]) && IsAlnum(s[0]);
      WordsOfLowerCase(s[1..], current + [s[0]], done);
      assert current + [s[0]] + s[1..] == current + s;
    } else {
      assert current + s == current;
    }
  }

  predicate IsLowerWord(w: string)
  {
    |w| > 0 && forall i :: 0 <= i < |w| ==> IsLower(w[i])
  }

  /** A capitalised word of at least two letters: `Organization`, `Project`. */
  predicate IsCapitalized(w: string)
  {
    |w| >= 2 && IsUpper(w[0]) && forall i :: 1 <= i < |w| ==> IsLower(w[i])
  }

  function Concat(ws: seq<string>): string
    decreases |ws|
  {
    if |ws| == 0 then "" else ws[0] + Concat(ws[1..])
  }

  /** Lower-case letters extend the current word, whatever follows them. */
  lemma {:induction false} WordsSkipLower(lowers: string, t: string, current: string, done: seq<string>)
    requires forall i :: 0 <= i < |lowers| ==> IsLower(lowers[i])
    requires IsWord(current) && !IsDigit(current[|current| - 1])
    requires forall i :: 0 <= i < |done| ==> IsWord(done[i])
    ensures IsWord(current + lowers)
    ensures WordsFrom(lowers + t, current, done) == WordsFrom(t, current + lowers, done)
    decreases |lowers|
  {
    if |lowers| == 0 {
      assert lowers + t == t && current + lowers == current;
    } else {
      assert (lowers + t)[1..] == lowers[1..] + t;
      assert IsWord(current + [lowers[0]]);
      WordsSkipLower(lowers[1..], t, current + [lowers[0]], done);
      assert current + [lowers[0]] + lowers[1..] == current + lowers;
    }
  }

  /** After a word ending in a lower-case letter, each capitalised word starts a new word. */
  lemma {:induction false} WordsOfCapitalized(caps: seq<string>, current: string, done: seq<string>)
    requires IsWord(current) && IsLower(current[|current| - 1])
    requires forall i :: 0 <= i < |caps| ==> IsCapitalized(caps[i])
    requires forall i :: 0 <= i < |done| ==> IsWord(done[i])
    ensures WordsFrom(Concat(caps), current, done) == done + [current] + caps
    decreases |caps|
  {
    if |caps| > 0 {
      var c := caps[0];
      var s := c + Concat(caps[1..]);
      assert s[0] == c[0] && s[1..] == c[1..] + Concat(caps[1..]);
      assert IsWord([c[0]]);
      WordsSkipLower(c[1..], Concat(caps[1..]), [c[0]], done + [current]);
      assert [c[0]] + c[1..] == c;
      WordsOfCapitalized(caps[1..], c, done + [current]);
      assert done + [current] + [c] + caps[1..] == done + [current] + caps;
    }
  }

  lemma WordsStartLower(s: string)
    requires |s| > 0 && IsLower(s[0])
    ensures Words(s) == WordsFrom(s[1..], [s[0]], [])
  {
    assert "" + [s[0]] == [s[0]];
  }

  /** A leading lower-case word is the first word of whatever follows it. */
  lemma LowerWordFirst(first: string, rest: string)
    requires IsLowerWord(first)
    ensures Words(first + rest) == WordsFrom(rest, first, [])
  {
    var s := first + rest;
    assert s[0] == first[0] && s[1..] == first[1..] + rest;
    WordsStartLower(s);
    assert IsWord([first[0]]);
    WordsSkipLower(first[1..], rest, [first[0]], []);
    assert [first[0]] + first[1..] == first;
  }

  /** Digits extend a current word that ends in a digit, whatever follows them. */
  lemma {:induction false} WordsSkipDigits(digits: string, t: string, current: string, done: seq<string>)
    requires forall i :: 0 <= i < |digits| ==> IsDigit(digits[i])
    requires IsWord(current) && IsDigit(current[|current| - 1])
    requires forall i :: 0 <= i < |done| ==> IsWord(done[i])
    ensures IsWord(current + digits)
    ensures WordsFrom(digits + t, current, done) == WordsFrom(t, current + digits, done)
    decreases |digits|
  {
    if |digits| == 0 {
      assert digits + t == t && current + digits == current;
    } else {
      assert (digits + t)[1..] == digits[1..] + t;
      assert IsWord(current + [digits[0]]);
      WordsSkipDigits(digits[1..], t, current + [digits[0]], done);
      assert current + [digits[0]] + digits[1..] == current + digits;
    }
  }

  /**
   * Digits form words of their own: `get2Sites` splits into `get`, `2` and
   * `Sites`, so its snake case is `get_2_sites`.
   */
  lemma DigitsSplitWords(first: string, digits: string, cap: string)
    requires IsLowerWord(first)
    requires |digits| > 0 && forall i :: 0 <= i < |digits| ==> IsDigit(digits[i])
    requires IsCapitalized(cap)
    ensures Words(first + digits + cap) == [first, digits, cap]
  {
    assert first + digits + cap == first + (digits + cap);
    LowerWordFirst(first, digits + cap);
    var t := digits + cap;
    assert t[0] == digits[0] && t[1..] == digits[1..] + cap;
    assert WordBreak(first[|first| - 1], digits[0]);
    assert IsWord([digits[0]]);
    assert [] + [first] == [first];
    assert WordsFrom(t, first, []) == WordsFrom(digits[1..] + cap, [digits[0]], [first]);
    WordsSkipDigits(digits[1..], cap, [digits[0]], [first]);
    assert [digits[0]] + digits[1..] == digits;
    assert WordBreak(digits[|digits| - 1], cap[0]);
    assert [first] + [digits] == [first, digits];
    assert WordsFrom(cap, digits, [first]) == WordsFrom(cap[1..], [cap[0]], [first, digits]);
    assert IsWord([cap[0]]);
    WordsSkipLower(cap[1..], "", [cap[0]], [first, digits]);
    assert cap[1..] + "" == cap[1..] && [cap[0]] + cap[1..] == cap;
  }

  /** The words of a camel-case method name such as `callProcedureOnProject`. */
  lemma {:induction false} CamelCaseWords(first: string, caps: seq<string>)
    requires IsLowerWord(first)
    requires forall i :: 0 <= i < |caps| ==> IsCapitalized(caps[i])
    ensures Words(first + Concat(caps)) == [first] + caps
  {
    LowerWordFirst(first, Concat(caps));
    WordsOfCapitalized(caps, first, []);
    assert [] + [first] + caps == [first] + caps;
  }

  // ---------------------------------------------------------------------------
  // Action types

  /** `createActionDescriptor`: `REQ_STATUS`. */
  function Descriptor(q: RequestKind, s: StatusKind): string
  {
    RequestName(q) + "_" + StatusName(s)
  }

  /**
   * The action type `@ <snakeCase(resource)> / REQ_STATUS`; the resource names
   * are single lower-case words, which `snakeCase` leaves as they are
   * (SnakeCaseOfResource), so the name appears verbatim.
   */
  function ActionTypeOf(r: Resource, q: RequestKind, s: StatusKind): string
  {
    "@ " + ResourceName(r) + " / " + Descriptor(q, s)
  }

  /** The 15 descriptors `REQ_STATUS`. */
  function Descriptors(): set<string>
  {
    set q: RequestKind, s: StatusKind :: Descriptor(q, s)
  }

  /**
   * `createActionTypes(resource)`: the nested `reduce` over `Request` and
   * `Status` builds one entry per descriptor, whose value depends on the
   * descriptor alone.
   */
  function CreateActionTypes(r: Resource): map<string, string>
  {
    map d | d in Descriptors() :: "@ " + ResourceName(r) + " / " + d
  }

  /** The descriptor determines the request and the status. */
  lemma DescriptorInjective(q1: RequestKind, s1: StatusKind, q2: RequestKind, s2: StatusKind)
    requires Descriptor(q1, s1) == Descriptor(q2, s2)
    ensures q1 == q2 && s1 == s2
  {
    NamesHaveNoSeparator(q1, s1);
    NamesHaveNoSeparator(q2, s2);
    assert Join([RequestName(q1), StatusName(s1)], "_") == Descriptor(q1, s1);
    assert Join([RequestName(q2), StatusName(s2)], "_") == Descriptor(q2, s2);
    SplitJoin([RequestName(q1), StatusName(s1)], '_');
    SplitJoin([RequestName(q2), StatusName(s2)], '_');
    assert RequestName(q1) == RequestName(q2) && StatusName(s1) == StatusName(s2);
    RequestNameInjective(q1, q2);
    StatusNameInjective(s1, s2);
  }

  lemma NamesHaveNoSeparator(q: RequestKind, s: StatusKind)
    ensures '_' !in RequestName(q) && ' ' !in RequestName(q) && '/' !in RequestName(q)
    ensures '_' !in StatusName(s) && ' ' !in StatusName(s) && '/' !in StatusName(s)
  {
    match q
    case List => case Get => case Create => case Update => case Destroy =>
  }

  lemma RequestNameInjective(q1: RequestKind, q2: RequestKind)
    requires RequestName(q1) == RequestName(q2)
    ensures q1 == q2
  {
  }

  lemma StatusNameInjective(s1: StatusKind, s2: StatusKind)
    requires StatusName(s1) == StatusName(s2)
    ensures s1 == s2
  {
  }

  lemma ResourceNameInjective(r1: Resource, r2: Resource)
    requires ResourceName(r1) == ResourceName(r2)
    ensures r1 == r2
  {
  }

  /**
   * `createActionTypes(r)` has exactly the 15 keys `REQ_STATUS`, each mapped to
   * `@ <resource> / REQ_STATUS`.
   */
  lemma ActionTypesExact(r: Resource)
    ensures forall k :: k in CreateActionTypes(r) <==> exists q, s :: k == Descriptor(q, s)
    ensures forall q, s :: CreateActionTypes(r)[Descriptor(q, s)] == ActionTypeOf(r, q, s)
    ensures |CreateActionTypes(r).Keys| == 15
  {
    assert CreateActionTypes(r).Keys == Descriptors();
    DescriptorCount();
  }

  lemma DescriptorCount()
    ensures |set q: RequestKind, s: StatusKind :: Descriptor(q, s)| == 15
  {
    var pairs := {(List, Requested), (List, Succeeded), (List, Failed),
                  (Get, Requested), (Get, Succeeded), (Get, Failed),
                  (Create, Requested), (Create, Succeeded), (Create, Failed),
                  (Update, Requested), (Update, Succeeded), (Update, Failed),
                  (Destroy, Requested), (Destroy, Succeeded), (Destroy, Failed)};
    assert |pairs| == 15;
    MapInjective(pairs);
    var img := set p | p in pairs :: Descriptor(p.0, p.1);
    forall q: RequestKind, s: StatusKind ensures Descriptor(q, s) in img {
      assert (q, s) in pairs by {
        match q {
          case List => match s { case Requested => case Succeeded => case Failed => }
          case Get => match s { case Requested => case Succeeded => case Failed => }
          case Create => match s { case Requested => case Succeeded => case Failed => }
          case Update => match s { case Requested => case Succeeded => case Failed => }
          case Destroy => match s { case Requested => case Succeeded => case Failed => }
        }
      }
    }
    assert img == set q: RequestKind, s: StatusKind :: Descriptor(q, s);
  }

  lemma MapInjective(pairs: set<(RequestKind, StatusKind)>)
    ensures |set p | p in pairs :: Descriptor(p.0, p.1)| == |pairs|
    decreases |pairs|
  {
    if pairs != {} {
      var p :| p in pairs;
      var rest := pairs - {p};
      MapInjective(rest);
      var img := set x | x in pairs :: Descriptor(x.0, x.1);
      var imgRest := set x | x in rest :: Descriptor(x.0, x.1);
      assert img == imgRest + {Descriptor(p.0, p.1)};
      if Descriptor(p.0, p.1) in imgRest {
        var x :| x in rest && Descriptor(x.0, x.1) == Descriptor(p.0, p.1);
        DescriptorInjective(x.0, x.1, p.0, p.1);
      }
    }
  }

  /** Action types of different resources, requests or statuses never collide. */
  lemma ActionTypesDistinct(r1: Resource, q1: RequestKind, s1: StatusKind, r2: Resource, q2: RequestKind, s2: StatusKind)
    requires ActionTypeOf(r1, q1, s1) == ActionTypeOf(r2, q2, s2)
    ensures r1 == r2 && q1 == q2 && s1 == s2
  {
    var n1, n2 := ResourceName(r1), ResourceName(r2);
    assert ' ' !in n1 && ' ' !in n2 by {
      match r1 case Organizations => case Projects => case Sites =>
      match r2 case Organizations => case Projects => case Sites =>
    }
    TypeStringInjective(n1, Descriptor(q1, s1), n2, Descriptor(q2, s2));
    ResourceNameInjective(r1, r2);
    DescriptorInjective(q1, s1, q2, s2);
  }

  /** `@ <name> / <descriptor>` determines a name without spaces and the descriptor. */
  lemma TypeStringInjective(n1: string, d1: string, n2: string, d2: string)
    requires ' ' !in n1 && ' ' !in n2
    requires "@ " + n1 + " / " + d1 == "@ " + n2 + " / " + d2
    ensures n1 == n2 && d1 == d2
  {
    var tail1, tail2 := n1 + [' '] + ("/ " + d1), n2 + [' '] + ("/ " + d2);
    assert "@ " + n1 + " / " + d1 == "@" + [' '] + tail1;
    assert "@ " + n2 + " / " + d2 == "@" + [' '] + tail2;
    PieceUnique("@", tail1, "@", tail2, ' ');
    PieceUnique(n1, "/ " + d1, n2, "/ " + d2, ' ');
    assert d1 == ("/ " + d1)[2..];
    assert d2 == ("/ " + d2)[2..];
  }

  // ---------------------------------------------------------------------------
  // Method-name derivation

  function Head(parts: seq<string>): string requires |parts| > 0 { parts[0] }
  function Last(parts: seq<string>): string requires |parts| > 0 { parts[|parts| - 1] }

  /** `get(Request, key)`: the request whose enum key is `key`. */
  function RequestByKey(key: string): (q: Option<RequestKind>)
    ensures q.Some? ==> RequestKey(q.value) == key
  {
    if key == "list" then Some(List)
    else if key == "get" then Some(Get)
    else if key == "create" then Some(Create)
    else if key == "update" then Some(Update)
    else if key == "destroy" then Some(Destroy)
    else None
  }

  /** `getRequestTypeFromMethod`. */
  function RequestFromMethod(m: string): Option<RequestKind>
  {
    var requestType := Lower(Head(Split(SnakeCase(m), '_')));
    if requestType == "" then None
    else if requestType == "delete" then Some(Destroy)
    else RequestByKey(requestType)
  }

  /** `find(Resource, …)`: the first resource, in enum order, equal to the plural or singular of `w`. */
  function FindResource(w: string): Option<Resource>
  {
    if ResourceName(Organizations) == Plural(w) || ResourceName(Organizations) == Singular(w) then Some(Organizations)
    else if ResourceName(Projects) == Plural(w) || ResourceName(Projects) == Singular(w) then Some(Projects)
    else if ResourceName(Sites) == Plural(w) || ResourceName(Sites) == Singular(w) then Some(Sites)
    else None
  }

  /** `getResourceFromMethod`. */
  function ResourceFromMethod(m: string): Option<Resource>
  {
    var resourceName := Lower(Last(Split(SnakeCase(m), '_')));
    if resourceName == "" then None else FindResource(resourceName)
  }

  lemma LowerIdempotent(w: string)
    ensures Lower(Lower(w)) == Lower(w)
  {
  }

  /**
   * The request is read from the first word of the method name: `delete` and
   * `destroy` give DESTROY, `list`/`get`/`create`/`update` give their request,
   * and anything else (or a name without words) gives none.
   */
  lemma RequestFromFirstWord(m: string, q: RequestKind)
    ensures RequestFromMethod(m) == Some(q) <==>
      |Words(m)| > 0 && (Lower(Words(m)[0]) == RequestKey(q) || (q == Destroy && Lower(Words(m)[0]) == "delete"))
  {
    SnakeTokens(m);
    if |Words(m)| > 0 {
      LowerIdempotent(Words(m)[0]);
      assert IsWord(Words(m)[0]);
    }
  }

  /** The resource is the one whose name is the plural or the singular of the last word. */
  lemma ResourceFromLastWord(m: string, r: Resource)
    ensures ResourceFromMethod(m) == Some(r) <==>
      |Words(m)| > 0 &&
      var w := Lower(Words(m)[|Words(m)| - 1]);
      ResourceName(r) == Plural(w) || ResourceName(r) == Singular(w)
  {
    ResourceFromWords(m);
    if |Words(m)| > 0 {
      FindResourceUnique(Lower(Words(m)[|Words(m)| - 1]), r);
    }
  }

  lemma RequestFromWords(m: string)
    ensures RequestFromMethod(m) == if Words(m) == [] then None else
      var w := Lower(Words(m)[0]);
      if w == "delete" then Some(Destroy) else RequestByKey(w)
  {
    SnakeTokens(m);
    if |Words(m)| > 0 {
      LowerIdempotent(Words(m)[0]);
      assert IsWord(Words(m)[0]);
    }
  }

  lemma ResourceFromWords(m: string)
    ensures ResourceFromMethod(m) == if Words(m) == [] then None else FindResource(Lower(Words(m)[|Words(m)| - 1]))
  {
    SnakeTokens(m);
    if |Words(m)| > 0 {
      var last := Words(m)[|Words(m)| - 1];
      LowerIdempotent(last);
      assert IsWord(last);
      assert Last(Split(SnakeCase(m), '_')) == Lower(last);
    }
  }

  /** At most one resource matches a word, so `find`'s order never matters. */
  lemma FindResourceUnique(w: string, r: Resource)
    ensures FindResource(w) == Some(r) <==> (ResourceName(r) == Plural(w) || ResourceName(r) == Singular(w))
  {
    if ResourceName(r) == Plural(w) || ResourceName(r) == Singular(w) {
      forall r' | ResourceName(r') == Plural(w) || ResourceName(r') == Singular(w) ensures r' == r {
        PluralSingularMatch(w, r, r');
      }
    }
  }

  lemma PluralSingularMatch(w: string, r: Resource, r': Resource)
    requires ResourceName(r) == Plural(w) || ResourceName(r) == Singular(w)
    requires ResourceName(r') == Plural(w) || ResourceName(r') == Singular(w)
    ensures r == r'
  {
    // Every resource name ends in one `s`, never in two; so one name cannot be
    // the plural of `w` while another is its singular.
    NameShape(r);
    NameShape(r');
    if ResourceName(r) == ResourceName(r') {
      ResourceNameInjective(r, r');
    }
  }

  /** Each resource name ends in `s` and its next-to-last letter is not `s`. */
  lemma NameShape(r: Resource)
    ensures var n := ResourceName(r); |n| >= 2 && n[|n| - 1] == 's' && n[|n| - 2] != 's'
  {
  }

  /** What a camel-case method name derives: the request from its first word, the resource from its last. */
  lemma CamelCaseDerivation(m: string, first: string, caps: seq<string>)
    requires IsLowerWord(first)
    requires forall i :: 0 <= i < |caps| ==> IsCapitalized(caps[i])
    requires m == first + Concat(caps)
    ensures RequestFromMethod(m) == if first == "delete" then Some(Destroy) else RequestByKey(first)
    ensures ResourceFromMethod(m) == FindResource(Lower(if caps == [] then first else caps[|caps| - 1]))
  {
    CamelCaseWords(first, caps);
    RequestFromWords(m);
    ResourceFromWords(m);
    assert Lower(first) == first;
  }

  // The examples below take the method name as a parameter fixed by `requires`:
  // stated on the literal itself, the solver would unfold the word splitter
  // letter by letter.

  /** `createOrganization` from the store's test table. */
  lemma CreateOrganizationExample(m: string)
    requires m == "createOrganization"
    ensures RequestFromMethod(m) == Some(Create) && ResourceFromMethod(m) == Some(Organizations)
  {
    var first, caps := "create", ["Organization"];
    assert IsLowerWord(first) && IsCapitalized(caps[0]);
    assert Concat(caps) == "Organization";
    assert m == first + Concat(caps);
    assert FindResource(Lower(caps[0])) == Some(Organizations);
    CamelCaseDerivation(m, first, caps);
  }

  /** `deleteOrganization`: `delete` is read as DESTROY. */
  lemma DeleteOrganizationExample(m: string)
    requires m == "deleteOrganization"
    ensures RequestFromMethod(m) == Some(Destroy) && ResourceFromMethod(m) == Some(Organizations)
  {
    var first, caps := "delete", ["Organization"];
    assert IsLowerWord(first) && IsCapitalized(caps[0]);
    assert Concat(caps) == "Organization";
    assert m == first + Concat(caps);
    assert FindResource(Lower(caps[0])) == Some(Organizations);
    CamelCaseDerivation(m, first, caps);
  }

  /** `listProject`: the singular word selects the plural resource. */
  lemma ListProjectExample(m: string)
    requires m == "listProject"
    ensures RequestFromMethod(m) == Some(List) && ResourceFromMethod(m) == Some(Projects)
  {
    var first, caps := "list", ["Project"];
    assert IsLowerWord(first) && IsCapitalized(caps[0]);
    assert Concat(caps) == "Project";
    assert m == first + Concat(caps);
    assert FindResource(Lower(caps[0])) == Some(Projects);
    CamelCaseDerivation(m, first, caps);
  }

  /** `listFoo`: a known request on an unknown resource. */
  lemma ListFooExample(m: string)
    requires m == "listFoo"
    ensures RequestFromMethod(m) == Some(List) && ResourceFromMethod(m) == None
  {
    var first, caps := "list", ["Foo"];
    assert IsLowerWord(first) && IsCapitalized(caps[0]);
    assert Concat(caps) == "Foo";
    assert m == first + Concat(caps);
    assert FindResource(Lower(caps[0])) == None;
    CamelCaseDerivation(m, first, caps);
  }

  /** `updateProj`: an abbreviation is no resource name. */
  lemma UpdateProjExample(m: string)
    requires m == "updateProj"
    ensures RequestFromMethod(m) == Some(Update) && ResourceFromMethod(m) == None
  {
    var first, caps := "update", ["Proj"];
    assert IsLowerWord(first) && IsCapitalized(caps[0]);
    assert Concat(caps) == "Proj";
    assert m == first + Concat(caps);
    assert FindResource(Lower(caps[0])) == None;
    CamelCaseDerivation(m, first, caps);
  }

  /** `invalidMethod`: an unknown first word gives no request. */
  lemma InvalidMethodExample(m: string)
    requires m == "invalidMethod"
    ensures RequestFromMethod(m) == None
  {
    var first, caps := "invalid", ["Method"];
    assert IsLowerWord(first) && IsCapitalized(caps[0]);
    assert Concat(caps) == "Method";
    assert m == first + Concat(caps);
    assert RequestByKey(first) == None;
    CamelCaseDerivation(m, first, caps);
  }

  // ---------------------------------------------------------------------------
  // Resource-action emission

  /** `getStatusFromAction`. */
  function StatusFromAction(kind: string): (s: Option<StatusKind>)
    ensures s.Some? <==> kind in {GrpcStore.INVOKED, GrpcStore.SUCCEEDED, GrpcStore.FAILED}
  {
    if kind == GrpcStore.INVOKED then Some(Requested)
    else if kind == GrpcStore.SUCCEEDED then Some(Succeeded)
    else if kind == GrpcStore.FAILED then Some(Failed)
    else None
  }

  /** The method name: from the request itself for INVOKED, from the echoed request otherwise. */
  function MethodOf(action: Action): Option<string>
  {
    if action.kind == GrpcStore.INVOKED then
      if action.payload.RequestPayload? then Some(action.payload.request.methodName) else None
    else if action.payload.ResponsePayload? then Some(action.payload.response.request.methodName)
    else None
  }

  /** `emitResourceAction`: the resource action to `put`, if any. */
  function EmitResourceAction(r: Resource, action: Action): Option<Action>
  {
    match MethodOf(action)
    case None => None
    case Some(m) =>
      if ResourceFromMethod(m) != Some(r) then None
      else if m == "" || RequestFromMethod(m).None? || StatusFromAction(action.kind).None? then None
      else
        var descriptor := Descriptor(RequestFromMethod(m).value, StatusFromAction(action.kind).value);
        var types := CreateActionTypes(r);
        if descriptor in types then Some(Action(types[descriptor], action.payload)) else None
  }

  /**
   * A gRPC action produces a resource action exactly when its method names this
   * resource and a request; the action's type is that resource's
   * `REQ_STATUS` type and its payload passes through unchanged.
   */
  lemma EmitSpec(r: Resource, action: Action)
    requires action.kind in {GrpcStore.INVOKED, GrpcStore.SUCCEEDED, GrpcStore.FAILED}
    ensures EmitResourceAction(r, action).Some? <==>
      MethodOf(action).Some? && ResourceFromMethod(MethodOf(action).value) == Some(r) &&
      RequestFromMethod(MethodOf(action).value).Some?
    ensures EmitResourceAction(r, action).Some? ==>
      EmitResourceAction(r, action) == Some(Action(
        ActionTypeOf(r, RequestFromMethod(MethodOf(action).value).value, StatusFromAction(action.kind).value),
        action.payload))
  {
    ActionTypesExact(r);
    if MethodOf(action).Some? {
      var m := MethodOf(action).value;
      if m == "" {
        assert SnakeCase(m) == "";
        assert ResourceFromMethod(m) == None;
      }
    }
  }

  // ---------------------------------------------------------------------------
  // The entity table and its reducer

  type Table = map<string, Entity>

  /** The invariant of every table the reducer builds: each key is its value's name. */
  predicate KeyedByName(t: Table)
  {
    forall k :: k in t ==> t[k].name == k
  }

  /** `{...old, ...entry}`: the fields of `old` overlaid by those of `entry`. */
  function Overlay(prev: Entity, entry: Entity): (e: Entity)
    ensures e.name == entry.name
    ensures e.fields.Keys == prev.fields.Keys + entry.fields.Keys
    ensures forall f :: f in entry.fields ==> e.fields[f] == entry.fields[f]
    ensures forall f :: f in prev.fields && f !in entry.fields ==> e.fields[f] == prev.fields[f]
  {
    Entity(entry.name, prev.fields + entry.fields)
  }

  /** `get(t, name, {})`: the stored value, or an object with no fields. */
  function StoredOrEmpty(t: Table, name: string): Entity
  {
    if name in t then t[name] else Entity(name, map[])
  }

  /** The inner `reduce` of LIST_SUCCEEDED over the listed entries, left to right. */
  function FoldList(items: seq<Entity>): Table
    decreases |items|
  {
    if |items| == 0 then map[]
    else
      var acc := FoldList(items[..|items| - 1]);
      var e := items[|items| - 1];
      acc[e.name := Overlay(StoredOrEmpty(acc, e.name), e)]
  }

  /** The createReducer reducer for resource `r`. */
  function Reduce(r: Resource, state: Table, action: Action): Table
  {
    if action.kind == ActionTypeOf(r, List, Succeeded) then
      if action.payload.ResponsePayload? && action.payload.response.data.Listing?
         && ResourceName(r) in action.payload.response.data.lists
      then state + FoldList(action.payload.response.data.lists[ResourceName(r)])
      else state
    else if action.kind in {ActionTypeOf(r, Get, Succeeded), ActionTypeOf(r, Create, Succeeded), ActionTypeOf(r, Update, Succeeded)} then
      if action.payload.ResponsePayload? && action.payload.response.data.Single? then
        var entry := action.payload.response.data.entity;
        state[entry.name := Overlay(StoredOrEmpty(state, entry.name), entry)]
      else state
    else if action.kind == ActionTypeOf(r, Destroy, Succeeded) then
      if action.payload.ResponsePayload? then state - {action.payload.response.request.data.name}
      else state
    else state
  }

  /** The LIST fold stores exactly the listed names, each under its own name. */
  lemma {:induction false} FoldListKeys(items: seq<Entity>)
    ensures KeyedByName(FoldList(items))
    ensures forall k :: k in FoldList(items) <==> exists i :: 0 <= i < |items| && items[i].name == k
    decreases |items|
  {
    if |items| > 0 {
      var init := items[..|items| - 1];
      var e := items[|items| - 1];
      FoldListKeys(init);
      forall k | k in FoldList(items) ensures exists i :: 0 <= i < |items| && items[i].name == k {
        if k != e.name {
          var i :| 0 <= i < |init| && init[i].name == k;
          assert items[i] == init[i];
        }
      }
      forall k | exists i :: 0 <= i < |items| && items[i].name == k ensures k in FoldList(items) {
        var i :| 0 <= i < |items| && items[i].name == k;
        if i < |init| { assert init[i] == items[i]; }
      }
    }
  }

  /** Some listed entry named `k` carries field `f`. */
  predicate ListedWith(items: seq<Entity>, k: string, f: string)
  {
    exists i :: 0 <= i < |items| && items[i].name == k && f in items[i].fields
  }

  lemma ListedWithLast(items: seq<Entity>, k: string, f: string)
    requires |items| > 0
    ensures ListedWith(items, k, f) <==>
      ListedWith(items[..|items| - 1], k, f) || (items[|items| - 1].name == k && f in items[|items| - 1].fields)
  {
    var init := items[..|items| - 1];
    if ListedWith(items, k, f) {
      var i :| 0 <= i < |items| && items[i].name == k && f in items[i].fields;
      if i < |init| { assert init[i] == items[i]; }
    }
    if ListedWith(init, k, f) {
      var i :| 0 <= i < |init| && init[i].name == k && f in init[i].fields;
      assert items[i] == init[i];
    }
  }

  /** A listed name carries exactly the fields of its listed entries. */
  lemma {:induction false} FoldListFields(items: seq<Entity>)
    ensures forall k, f :: k in FoldList(items) ==> (f in FoldList(items)[k].fields <==> ListedWith(items, k, f))
    decreases |items|
  {
    if |items| > 0 {
      var init := items[..|items| - 1];
      FoldListKeys(init);
      FoldListFields(init);
      forall k, f | k in FoldList(items) ensures f in FoldList(items)[k].fields <==> ListedWith(items, k, f) {
        ListedWithLast(items, k, f);
      }
    }
  }

  /** Each field keeps the value of the last listed entry of that name that carries it. */
  lemma {:induction false} FoldListValues(items: seq<Entity>)
    ensures forall k, f, i ::
      (0 <= i < |items| && items[i].name == k && f in items[i].fields &&
       (forall j :: i < j < |items| && items[j].name == k ==> f !in items[j].fields)) ==>
      k in FoldList(items) && f in FoldList(items)[k].fields && FoldList(items)[k].fields[f] == items[i].fields[f]
    decreases |items|
  {
    if |items| > 0 {
      var init := items[..|items| - 1];
      FoldListKeys(init);
      FoldListValues(init);
      var t := FoldList(items);
      forall k, f, i | 0 <= i < |items| && items[i].name == k && f in items[i].fields &&
        (forall j :: i < j < |items| && items[j].name == k ==> f !in items[j].fields)
        ensures k in t && f in t[k].fields && t[k].fields[f] == items[i].fields[f]
      {
        if i < |init| {
          assert init[i] == items[i];
          forall j | i < j < |init| && init[j].name == k ensures f !in init[j].fields {
            assert init[j] == items[j];
          }
        }
      }
    }
  }

  /** The LIST fold: exactly the listed names, each built from the listed entries of that name only. */
  lemma FoldListSpec(items: seq<Entity>)
    ensures KeyedByName(FoldList(items))
    ensures forall k :: k in FoldList(items) <==> exists i :: 0 <= i < |items| && items[i].name == k
    ensures forall k, f :: k in FoldList(items) ==> (f in FoldList(items)[k].fields <==> ListedWith(items, k, f))
    ensures forall k, f, i ::
      (0 <= i < |items| && items[i].name == k && f in items[i].fields &&
       (forall j :: i < j < |items| && items[j].name == k ==> f !in items[j].fields)) ==>
      k in FoldList(items) && f in FoldList(items)[k].fields && FoldList(items)[k].fields[f] == items[i].fields[f]
  {
    FoldListKeys(items);
    FoldListFields(items);
    FoldListValues(items);
  }

  /** The reducer keeps every key equal to its value's name. */
  lemma ReducePreservesKeys(r: Resource, state: Table, action: Action)
    requires KeyedByName(state)
    ensures KeyedByName(Reduce(r, state, action))
  {
    if action.payload.ResponsePayload? && action.payload.response.data.Listing?
       && ResourceName(r) in action.payload.response.data.lists {
      FoldListSpec(action.payload.response.data.lists[ResourceName(r)]);
    }
  }

  /**
   * LIST_SUCCEEDED: keys not listed keep their values, and each listed name is
   * stored with the fields of its listed entries only; the previous value's
   * fields are not kept.
   */
  lemma ReduceList(r: Resource, state: Table, resp: GrpcResponse, items: seq<Entity>)
    requires resp.data.Listing? && ResourceName(r) in resp.data.lists
    requires items == resp.data.lists[ResourceName(r)]
    ensures var t := Reduce(r, state, Action(ActionTypeOf(r, List, Succeeded), ResponsePayload(resp)));
      t.Keys == state.Keys + (set i | 0 <= i < |items| :: items[i].name) &&
      (forall k :: k in state && (forall i :: 0 <= i < |items| ==> items[i].name != k) ==> t[k] == state[k]) &&
      (forall k, f :: k in t && (exists i :: 0 <= i < |items| && items[i].name == k) ==>
        (f in t[k].fields <==> exists i :: 0 <= i < |items| && items[i].name == k && f in items[i].fields))
  {
    FoldListSpec(items);
    var t := Reduce(r, state, Action(ActionTypeOf(r, List, Succeeded), ResponsePayload(resp)));
    assert t == state + FoldList(items);
  }

  /**
   * GET, CREATE and UPDATE success: the value under the entry's name becomes
   * the old value (or nothing) overlaid by the entry; other keys are untouched.
   */
  lemma ReduceEntity(r: Resource, q: RequestKind, state: Table, resp: GrpcResponse)
    requires q in {Get, Create, Update}
    requires resp.data.Single?
    ensures var e := resp.data.entity;
      var t := Reduce(r, state, Action(ActionTypeOf(r, q, Succeeded), ResponsePayload(resp)));
      t.Keys == state.Keys + {e.name} &&
      (forall k :: k in state && k != e.name ==> t[k] == state[k]) &&
      t[e.name].name == e.name &&
      (forall f :: f in e.fields ==> t[e.name].fields[f] == e.fields[f]) &&
      (forall f :: e.name in state && f in state[e.name].fields && f !in e.fields ==> t[e.name].fields[f] == state[e.name].fields[f])
  {
    if ActionTypeOf(r, q, Succeeded) == ActionTypeOf(r, List, Succeeded) {
      ActionTypesDistinct(r, q, Succeeded, r, List, Succeeded);
    }
  }

  /**
   * DESTROY success removes exactly the key named by the echoed request's data,
   * whatever the response data holds; an absent key leaves the table unchanged.
   */
  lemma ReduceDestroy(r: Resource, state: Table, resp: GrpcResponse)
    ensures var n := resp.request.data.name;
      var t := Reduce(r, state, Action(ActionTypeOf(r, Destroy, Succeeded), ResponsePayload(resp)));
      t.Keys == state.Keys - {n} && (forall k :: k in t ==> t[k] == state[k]) &&
      (n !in state ==> t == state)
  {
    var d := ActionTypeOf(r, Destroy, Succeeded);
    if d == ActionTypeOf(r, List, Succeeded) { ActionTypesDistinct(r, Destroy, Succeeded, r, List, Succeeded); }
    if d == ActionTypeOf(r, Get, Succeeded) { ActionTypesDistinct(r, Destroy, Succeeded, r, Get, Succeeded); }
    if d == ActionTypeOf(r, Create, Succeeded) { ActionTypesDistinct(r, Destroy, Succeeded, r, Create, Succeeded); }
    if d == ActionTypeOf(r, Update, Succeeded) { ActionTypesDistinct(r, Destroy, Succeeded, r, Update, Succeeded); }
  }

  /** Every action other than the resource's five success types leaves the table as it is. */
  lemma ReduceOther(r: Resource, state: Table, action: Action)
    requires forall q :: action.kind != ActionTypeOf(r, q, Succeeded)
    ensures Reduce(r, state, action) == state
  {
  }

  /** Applying the same LIST success twice gives the table that applying it once gives. */
  lemma ReduceListIdempotent(r: Resource, state: Table, resp: GrpcResponse)
    ensures var a := Action(ActionTypeOf(r, List, Succeeded), ResponsePayload(resp));
      Reduce(r, Reduce(r, state, a), a) == Reduce(r, state, a)
  {
    var a := Action(ActionTypeOf(r, List, Succeeded), ResponsePayload(resp));
    if resp.data.Listing? && ResourceName(r) in resp.data.lists {
      var f := FoldList(resp.data.lists[ResourceName(r)]);
      assert (state + f) + f == state + f;
    }
  }

  /** Applying the same GET/CREATE/UPDATE success twice gives the table that applying it once gives. */
  lemma ReduceEntityIdempotent(r: Resource, q: RequestKind, state: Table, resp: GrpcResponse)
    requires q in {Get, Create, Update}
    ensures var a := Action(ActionTypeOf(r, q, Succeeded), ResponsePayload(resp));
      Reduce(r, Reduce(r, state, a), a) == Reduce(r, state, a)
  {
    var a := Action(ActionTypeOf(r, q, Succeeded), ResponsePayload(resp));
    if ActionTypeOf(r, q, Succeeded) == ActionTypeOf(r, List, Succeeded) {
      ActionTypesDistinct(r, q, Succeeded, r, List, Succeeded);
    }
    if resp.data.Single? {
      var e := resp.data.entity;
      var once := Reduce(r, state, a);
      assert once[e.name].fields + e.fields == once[e.name].fields;
    }
  }

  // ---------------------------------------------------------------------------
  // Selectors

  /** `getByName(name)`: the stored value, or null. */
  function GetByName(t: Table, name: string): (e: Option<Entity>)
    ensures e.Some? <==> name in t
    ensures e.Some? ==> e.value == t[name]
  {
    if name in t then Some(t[name]) else None
  }

  /** `countAll`: the number of keys. */
  function CountAll(t: Table): nat
  {
    |t.Keys|
  }

  /** Creating an instance under a new name adds one to the count. */
  lemma CountAfterCreate(r: Resource, state: Table, resp: GrpcResponse)
    requires resp.data.Single? && resp.data.entity.name !in state
    ensures CountAll(Reduce(r, state, Action(ActionTypeOf(r, Create, Succeeded), ResponsePayload(resp)))) == CountAll(state) + 1
  {
    ReduceEntity(r, Create, state, resp);
  }

  /** Destroying a stored instance removes one from the count. */
  lemma CountAfterDestroy(r: Resource, state: Table, resp: GrpcResponse)
    requires resp.request.data.name in state
    ensures CountAll(Reduce(r, state, Action(ActionTypeOf(r, Destroy, Succeeded), ResponsePayload(resp)))) == CountAll(state) - 1
  {
    ReduceDestroy(r, state, resp);
    var t := Reduce(r, state, Action(ActionTypeOf(r, Destroy, Succeeded), ResponsePayload(resp)));
    assert state.Keys == t.Keys + {resp.request.data.name};
  }
}
