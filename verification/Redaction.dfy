/**
 The recursive scanner and sanitizer at every output boundary (src/aotp/redaction.py).

 The text patterns are a parameter with four laws; everything about keys, placeholders, nesting
 and dictionaries is concrete.
 */
module Redaction {
  import opened Basics

  // ----- Values -----

  /** A dictionary key: its text, and whether it is a string (kind 0) or some other object. */
  datatype Key = Key(text: string, kind: nat)

  /** A dictionary keeps its insertion order. */
  datatype Value =
    | Null | Text(text: string) | Atom(shown: string)
    | List(items: seq<Value>) | Tuple(items: seq<Value>)
    | Dict(entries: seq<Entry>)

  datatype Entry = Entry(key: Key, value: Value)

  datatype Step = Field(key: string) | HiddenField | At(index: nat)

  datatype Finding = Finding(path: seq<Step>, kind: string, digest: string)

  /** The compiled patterns: kinds found in a text, (kind, digest) of each match, redaction, digests. */
  datatype Detector = Detector(
    findings: string -> seq<string>, matches: string -> set<(string, string)>, redact: string -> string,
    keyDigest: string -> string, itemDigest: Value -> string)

  const MARKER := "[REDACTED:sensitive_field]"

  function Digits(n: nat): string {
    var last := [('0' as int + n % 10) as char];
    if n < 10 then last else Digits(n / 10) + last
  }

  /** The key that replaces the key at this index. */
  function Generated(index: nat): string {
    "[REDACTED:key:" + Digits(index) + "]"
  }

  ghost predicate Lawful(d: Detector) {
    && (forall t :: d.findings(d.redact(t)) == [])
    && (forall t :: d.findings(t) == [] ==> d.redact(t) == t)
    && (forall t :: d.findings(t) == [] <==> d.matches(t) == {})
    && d.findings("") == [] && d.findings(MARKER) == [] && (forall i: nat :: d.findings(Generated(i)) == [])
  }

  /** A detector of one literal text obeys the laws and finds something. */
  lemma LawsHaveModels()
    ensures exists d :: Lawful(d) && d.findings("!") != []
  {
    var d := Detector(
      t => if t == "!" then ["literal"] else [], t => if t == "!" then {("literal", "")} else {},
      t => if t == "!" then "[REDACTED]" else t, t => "", v => "");
    assert forall i: nat :: |Generated(i)| > 1;
    assert Lawful(d);
  }

  // ----- Sensitive keys -----

  function Lower(s: string): string {
    seq(|s|, i requires 0 <= i < |s| =>
      if 'A' <= s[i] <= 'Z' then (s[i] as int + 32) as char else if s[i] == '-' then '_' else s[i])
  }

  predicate EndsWith(s: string, suffix: string) {
    |suffix| <= |s| && s[|s| - |suffix|..] == suffix
  }

  predicate EndsWithAny(s: string, suffixes: seq<string>) {
    exists i :: 0 <= i < |suffixes| && EndsWith(s, suffixes[i])
  }

  const HARMLESS := ["_reference", "_alias", "_status", "_hash", "_sha256"]

  const SENSITIVE_KEYS := [
    "access_token", "api_key", "authorization", "bearer", "client_secret", "cookie", "cookie_value", "credential",
    "credentials", "csrf", "id_token", "password", "private_key", "private_key_material", "raw_cookie", "raw_token",
    "refresh_token", "secret", "secret_key", "session", "session_cookie", "session_id", "token", "token_value"]

  const SENSITIVE_ENDINGS := [
    "_access_token", "_client_secret", "_cookie_value", "_credential", "_password", "_private_key",
    "_private_key_material", "_raw_cookie", "_raw_token", "_refresh_token", "_secret", "_secret_key",
    "_session_cookie", "_token_value"]

  predicate SensitiveKey(key: string) {
    var normalized := Lower(key);
    !EndsWithAny(normalized, HARMLESS) && (normalized in SENSITIVE_KEYS || EndsWithAny(normalized, SENSITIVE_ENDINGS))
  }

  /** Comparison with None, the empty string, list and dict; an empty tuple is none of these. */
  predicate Blank(v: Value) {
    v in {Null, Text(""), List([]), Dict([])}
  }

  predicate Placeholder(v: Value) {
    v.Text? && "[REDACTED" <= v.text && EndsWith(v.text, "]")
  }

  predicate Hidden(key: string, item: Value) {
    SensitiveKey(key) && !Blank(item)
  }

  // ----- What scanning and sanitizing compute -----

  function FieldStep(d: Detector, key: string): Step {
    if d.findings(key) != [] then HiddenField else Field(key)
  }

  ghost function KeyFindings(d: Detector, key: string, path: seq<Step>): set<Finding> {
    set kind | kind in d.findings(key) :: Finding(path + [HiddenField], kind, d.keyDigest(key))
  }

  ghost function FieldFindings(d: Detector, key: string, item: Value, path: seq<Step>): set<Finding> {
    if Hidden(key, item) && !Placeholder(item) then {Finding(path, "sensitive_field", d.itemDigest(item))} else {}
  }

  ghost function TextFindings(d: Detector, t: string, path: seq<Step>): set<Finding> {
    set m | m in d.matches(t) :: Finding(path, m.0, m.1)
  }

  /** The report without its sorting. */
  ghost function Scan(d: Detector, v: Value, path: seq<Step>): set<Finding>
    decreases v, 0
  {
    match v
    case Text(t) => TextFindings(d, t, path)
    case List(items) => ScanItems(d, items, |items|, path)
    case Tuple(items) => ScanItems(d, items, |items|, path)
    case Dict(entries) => ScanEntries(d, entries, |entries|, path)
    case _ => {}
  }

  ghost function ScanItems(d: Detector, items: seq<Value>, n: nat, path: seq<Step>): set<Finding>
    requires n <= |items|
    decreases items, n
  {
    if n == 0 then {} else ScanItems(d, items, n - 1, path) + Scan(d, items[n - 1], path + [At(n - 1)])
  }

  ghost function ScanEntries(d: Detector, entries: seq<Entry>, n: nat, path: seq<Step>): set<Finding>
    requires n <= |entries|
    decreases entries, n
  {
    if n == 0 then {} else ScanEntries(d, entries, n - 1, path) + ScanEntry(d, entries[n - 1], path)
  }

  ghost function ScanEntry(d: Detector, e: Entry, path: seq<Step>): set<Finding>
    decreases e, 1
  {
    var inner := path + [FieldStep(d, e.key.text)];
    KeyFindings(d, e.key.text, path) + FieldFindings(d, e.key.text, e.value, inner) + Scan(d, e.value, inner)
  }

  /** Assignment into a Python dict: an existing key keeps its place and gets the new value. */
  function Assign(entries: seq<Entry>, key: Key, v: Value): seq<Entry> {
    if entries == [] then [Entry(key, v)]
    else if entries[0].key == key then [Entry(key, v)] + entries[1..]
    else [entries[0]] + Assign(entries[1..], key, v)
  }

  function CleanKey(d: Detector, key: string, index: nat): Key {
    Key(if d.findings(key) != [] then Generated(index) else key, 0)
  }

  function Sanitize(d: Detector, v: Value): Value
    decreases v, 0
  {
    match v
    case Text(t) => Text(d.redact(t))
    case List(items) => List(seq(|items|, i requires 0 <= i < |items| => Sanitize(d, items[i])))
    case Tuple(items) => List(seq(|items|, i requires 0 <= i < |items| => Sanitize(d, items[i])))
    case Dict(entries) => Dict(SanitizeEntries(d, entries, |entries|))
    case _ => v
  }

  /** The first n entries, assigned one after the other. */
  function SanitizeEntries(d: Detector, entries: seq<Entry>, n: nat): seq<Entry>
    requires n <= |entries|
    decreases entries, n
  {
    if n == 0 then []
    else
      var last := entries[n - 1];
      Assign(SanitizeEntries(d, entries, n - 1), CleanKey(d, last.key.text, n - 1), CleanItem(d, last))
  }

  function CleanItem(d: Detector, e: Entry): Value
    decreases e
  {
    if Hidden(e.key.text, e.value) then Text(MARKER) else Sanitize(d, e.value)
  }

  // ----- The code -----

  method ScanValue(d: Detector, v: Value, path: seq<Step>) returns (results: set<Finding>)
    ensures results == Scan(d, v, path)
    decreases v, 0
  {
    results := {};
    match v
    case Dict(entries) =>
      for i := 0 to |entries|
        invariant results == ScanEntries(d, entries, i, path)
      {
        var found := ScanField(d, entries[i], path);
        results := results + found;
      }
    case List(items) =>
      results := ScanList(d, items, path);
    case Tuple(items) =>
      results := ScanList(d, items, path);
    case Text(t) =>
      results := set m | m in d.matches(t) :: Finding(path, m.0, m.1);
    case _ =>
  }

  /** The loop body over one entry of a dictionary. */
  method ScanField(d: Detector, e: Entry, path: seq<Step>) returns (results: set<Finding>)
    ensures results == ScanEntry(d, e, path)
    decreases e, 1
  {
    hide SensitiveKey, Placeholder, Blank;
    var key, item := e.key.text, e.value;
    var kinds := d.findings(key);
    var itemPath := path + [if kinds != [] then HiddenField else Field(key)];
    results := set kind | kind in kinds :: Finding(path + [HiddenField], kind, d.keyDigest(key));
    if SensitiveKey(key) && !Blank(item) && !Placeholder(item) {
      results := results + {Finding(itemPath, "sensitive_field", d.itemDigest(item))};
    }
    var nested := ScanValue(d, item, itemPath);
    results := results + nested;
  }

  method ScanList(d: Detector, items: seq<Value>, path: seq<Step>) returns (results: set<Finding>)
    ensures results == ScanItems(d, items, |items|, path)
    decreases items
  {
    results := {};
    for i := 0 to |items|
      invariant results == ScanItems(d, items, i, path)
    {
      var nested := ScanValue(d, items[i], path + [At(i)]);
      results := results + nested;
    }
  }

  method SanitizeWithReport(d: Detector, v: Value, path: seq<Step>) returns (cleaned: Value, report: set<Finding>)
    ensures cleaned == Sanitize(d, v) && report == Scan(d, v, path)
    decreases v
  {
    report := ScanValue(d, v, path);
    match v
    case Text(t) =>
      cleaned := Text(d.redact(t));
    case List(items) =>
      var list := SanitizeItems(d, items, path);
      cleaned := List(list);
    case Tuple(items) =>
      var list := SanitizeItems(d, items, path);
      cleaned := List(list);
    case Dict(entries) =>
      var dict := [];
      for i := 0 to |entries|
        invariant dict == SanitizeEntries(d, entries, i)
      {
        var text, item := entries[i].key.text, entries[i].value;
        var kinds := d.findings(text);
        var cleanedKey := Key(if kinds != [] then Generated(i) else text, 0);
        if SensitiveKey(text) && !Blank(item) {
          dict := Assign(dict, cleanedKey, Text(MARKER));
        } else {
          var nested, _ := SanitizeWithReport(d, item, path + [if kinds != [] then HiddenField else Field(text)]);
          dict := Assign(dict, cleanedKey, nested);
        }
      }
      cleaned := Dict(dict);
    case _ =>
      cleaned := v;
  }

  method SanitizeItems(d: Detector, items: seq<Value>, path: seq<Step>) returns (list: seq<Value>)
    ensures list == seq(|items|, i requires 0 <= i < |items| => Sanitize(d, items[i]))
    decreases items
  {
    list := [];
    for i := 0 to |items|
      invariant |list| == i && forall j :: 0 <= j < i ==> list[j] == Sanitize(d, items[j])
    {
      var nested, _ := SanitizeWithReport(d, items[i], path + [At(i)]);
      list := list + [nested];
    }
  }

  // ----- Sanitized values -----

  /** No findings in texts or keys, one entry per key, string keys only, sensitive fields blank or marked. */
  ghost predicate Sanitized(d: Detector, v: Value) {
    match v
    case Text(t) => d.findings(t) == []
    case List(items) => forall i :: 0 <= i < |items| ==> Sanitized(d, items[i])
    case Tuple(_) => false
    case Dict(entries) =>
      && (forall i :: 0 <= i < |entries| ==>
            && SanitizedEntry(d, entries[i].key, entries[i].value)
            && Sanitized(d, entries[i].value))
      && Distinct(KeysOf(entries))
    case _ => true
  }

  ghost predicate SanitizedEntry(d: Detector, key: Key, item: Value) {
    key.kind == 0 && d.findings(key.text) == [] && (Hidden(key.text, item) ==> item == Text(MARKER))
  }

  function KeysOf(entries: seq<Entry>): (keys: seq<Key>)
    ensures |keys| == |entries| && forall i :: 0 <= i < |keys| ==> keys[i] == entries[i].key
  {
    if entries == [] then [] else [entries[0].key] + KeysOf(entries[1..])
  }

  lemma {:induction false} AssignKeys(entries: seq<Entry>, key: Key, v: Value)
    ensures key in KeysOf(entries) ==> KeysOf(Assign(entries, key, v)) == KeysOf(entries)
    ensures key !in KeysOf(entries) ==> KeysOf(Assign(entries, key, v)) == KeysOf(entries) + [key]
  {
    if entries != [] && entries[0].key != key {
      AssignKeys(entries[1..], key, v);
      assert Assign(entries, key, v)[1..] == Assign(entries[1..], key, v);
      assert key in KeysOf(entries) <==> key in KeysOf(entries[1..]);
    }
  }

  lemma {:induction false} AssignMembers(entries: seq<Entry>, key: Key, v: Value)
    ensures forall e :: e in Assign(entries, key, v) ==> e in entries || e == Entry(key, v)
  {
    if entries != [] {
      AssignMembers(entries[1..], key, v);
    }
  }

  lemma {:induction false} AssignNew(entries: seq<Entry>, key: Key, v: Value)
    requires forall i :: 0 <= i < |entries| ==> entries[i].key != key
    ensures Assign(entries, key, v) == entries + [Entry(key, v)]
  {
    if entries != [] {
      AssignNew(entries[1..], key, v);
    }
  }

  // ----- Which keys are sensitive, apart from how the code normalizes them -----

  /** The same character up to ASCII case, a dash counting as an underscore. */
  predicate SameChar(a: char, b: char) {
    || a == b || (a in "-_" && b in "-_")
    || ('A' <= a <= 'Z' && a as int + 32 == b as int) || ('A' <= b <= 'Z' && b as int + 32 == a as int)
  }

  predicate SameText(a: string, b: string) {
    |a| == |b| && forall i :: 0 <= i < |a| ==> SameChar(a[i], b[i])
  }

  predicate EndsLike(key: string, suffix: string) {
    |suffix| <= |key| && SameText(key[|key| - |suffix|..], suffix)
  }

  /** No harmless ending, and a listed key or a listed ending, in whatever case and with dashes or underscores. */
  ghost predicate NamesSecret(key: string) {
    && (forall i :: 0 <= i < |HARMLESS| ==> !EndsLike(key, HARMLESS[i]))
    && ((exists i :: 0 <= i < |SENSITIVE_KEYS| && SameText(key, SENSITIVE_KEYS[i]))
        || (exists i :: 0 <= i < |SENSITIVE_ENDINGS| && EndsLike(key, SENSITIVE_ENDINGS[i])))
  }

  predicate Normal(s: string) {
    forall c :: c in s ==> c != '-' && !('A' <= c <= 'Z')
  }

  lemma HarmlessNormal(i: nat)
    requires i < |HARMLESS|
    ensures Normal(HARMLESS[i])
  {
  }

  lemma FirstKeysNormal(i: nat)
    requires i < 12
    ensures Normal(SENSITIVE_KEYS[i])
  {
  }

  lemma LastKeysNormal(i: nat)
    requires 12 <= i < |SENSITIVE_KEYS|
    ensures Normal(SENSITIVE_KEYS[i])
  {
  }

  lemma KeysNormal(i: nat)
    requires i < |SENSITIVE_KEYS|
    ensures Normal(SENSITIVE_KEYS[i])
  {
    hide Normal;
    if i < 12 {
      FirstKeysNormal(i);
    } else {
      LastKeysNormal(i);
    }
  }

  lemma EndingsNormal(i: nat)
    requires i < |SENSITIVE_ENDINGS|
    ensures Normal(SENSITIVE_ENDINGS[i])
  {
  }

  /** The characters the code compares after normalizing are the ones that read the same. */
  lemma LowerSame(a: string, b: string)
    ensures SameText(a, b) <==> Lower(a) == Lower(b)
  {
    if SameText(a, b) {
      assert forall i :: 0 <= i < |a| ==> SameChar(a[i], b[i]);
    }
    if Lower(a) == Lower(b) {
      forall i | 0 <= i < |a| ensures SameChar(a[i], b[i]) {
        assert Lower(a)[i] == Lower(b)[i];
      }
    }
  }

  lemma NormalKept(s: string)
    requires Normal(s)
    ensures Lower(s) == s
  {
    forall i | 0 <= i < |s| ensures Lower(s)[i] == s[i] {
      assert s[i] in s;
    }
  }

  lemma EndsSame(key: string, suffix: string)
    requires Normal(suffix)
    ensures EndsWith(Lower(key), suffix) <==> EndsLike(key, suffix)
  {
    NormalKept(suffix);
    if |suffix| <= |key| {
      var end := key[|key| - |suffix|..];
      LowerSame(end, suffix);
      assert Lower(key)[|key| - |suffix|..] == Lower(end);
    }
  }

  /** A key is sensitive exactly if it reads like a listed one, and then however it is spelled. */
  lemma SensitiveExactly(key: string)
    ensures SensitiveKey(key) <==> NamesSecret(key)
  {
    hide Lower, SameText, EndsLike, EndsWith, Normal;
    forall i | 0 <= i < |HARMLESS| ensures EndsWith(Lower(key), HARMLESS[i]) <==> EndsLike(key, HARMLESS[i]) {
      HarmlessNormal(i);
      EndsSame(key, HARMLESS[i]);
    }
    forall i | 0 <= i < |SENSITIVE_ENDINGS|
      ensures EndsWith(Lower(key), SENSITIVE_ENDINGS[i]) <==> EndsLike(key, SENSITIVE_ENDINGS[i])
    {
      EndingsNormal(i);
      EndsSame(key, SENSITIVE_ENDINGS[i]);
    }
    forall i | 0 <= i < |SENSITIVE_KEYS|
      ensures Lower(key) == SENSITIVE_KEYS[i] <==> SameText(key, SENSITIVE_KEYS[i])
    {
      KeysNormal(i);
      LowerSame(key, SENSITIVE_KEYS[i]);
      NormalKept(SENSITIVE_KEYS[i]);
    }
  }

  /** Spelling does not matter. */
  lemma SpellingIgnored(a: string, b: string)
    requires SameText(a, b)
    ensures SensitiveKey(a) <==> SensitiveKey(b)
  {
    LowerSame(a, b);
  }

  /** A generated key ends in a bracket, as no sensitive key does. */
  lemma GeneratedHarmless(i: nat)
    ensures !SensitiveKey(Generated(i))
  {
    var s := Lower(Generated(i));
    var last := |s| - 1;
    assert s[last] == ']';
    forall j | 0 <= j < |SENSITIVE_ENDINGS| ensures !EndsWith(s, SENSITIVE_ENDINGS[j]) {
      var n := |SENSITIVE_ENDINGS[j]|;
      assert n > 0 && SENSITIVE_ENDINGS[j][n - 1] != ']';
      if n <= |s| {
        assert s[|s| - n..][n - 1] == s[last];
      }
    }
  }

  lemma {:induction false} BlankKept(d: Detector, v: Value)
    requires Lawful(d) && Blank(v)
    ensures Sanitize(d, v) == v
  {
  }

  lemma {:induction false} CleanEntry(d: Detector, e: Entry, index: nat)
    requires Lawful(d)
    ensures SanitizedEntry(d, CleanKey(d, e.key.text, index), CleanItem(d, e))
  {
    hide SensitiveKey, Generated;
    GeneratedHarmless(index);
    if Blank(e.value) {
      BlankKept(d, e.value);
    }
  }

  /** Whatever comes in, what goes out is sanitized. */
  lemma {:induction false} SanitizeEstablishes(d: Detector, v: Value)
    requires Lawful(d)
    ensures Sanitized(d, Sanitize(d, v))
    decreases v
  {
    match v
    case List(items) =>
      forall i | 0 <= i < |items| ensures Sanitized(d, Sanitize(d, items[i])) {
        SanitizeEstablishes(d, items[i]);
      }
    case Tuple(items) =>
      forall i | 0 <= i < |items| ensures Sanitized(d, Sanitize(d, items[i])) {
        SanitizeEstablishes(d, items[i]);
      }
    case Dict(entries) =>
      EntriesEstablish(d, entries, |entries|);
    case _ =>
  }

  lemma {:induction false} EntriesEstablish(d: Detector, entries: seq<Entry>, n: nat)
    requires Lawful(d) && n <= |entries|
    ensures Sanitized(d, Dict(SanitizeEntries(d, entries, n)))
    decreases entries, n
  {
    hide Lawful, SanitizedEntry, CleanKey, CleanItem;
    if n > 0 {
      EntriesEstablish(d, entries, n - 1);
      var last := entries[n - 1];
      CleanEntry(d, last, n - 1);
      ItemEstablishes(d, last);
      AssignSanitized(d, SanitizeEntries(d, entries, n - 1), CleanKey(d, last.key.text, n - 1), CleanItem(d, last));
    }
  }

  lemma {:induction false} AssignSanitized(d: Detector, entries: seq<Entry>, key: Key, v: Value)
    requires Sanitized(d, Dict(entries)) && SanitizedEntry(d, key, v) && Sanitized(d, v)
    ensures Sanitized(d, Dict(Assign(entries, key, v)))
  {
    hide SanitizedEntry, Assign;
    AssignKeys(entries, key, v);
    AssignMembers(entries, key, v);
    var t := Assign(entries, key, v);
    forall i | 0 <= i < |t| ensures SanitizedEntry(d, t[i].key, t[i].value) && Sanitized(d, t[i].value) {
      assert t[i] in t;
      if t[i] != Entry(key, v) {
        var j :| 0 <= j < |entries| && entries[j] == t[i];
      }
    }
  }

  lemma {:induction false} ItemEstablishes(d: Detector, e: Entry)
    requires Lawful(d)
    ensures Sanitized(d, CleanItem(d, e))
    decreases e
  {
    hide Hidden;
    MarkerClean(d);
    SanitizeEstablishes(d, e.value);
  }

  lemma {:induction false} MarkerClean(d: Detector)
    requires Lawful(d)
    ensures Sanitized(d, Text(MARKER))
  {
  }

  /** Sanitizing leaves exactly the sanitized values alone. */
  lemma {:induction false} SanitizedFixed(d: Detector, v: Value)
    requires Lawful(d)
    ensures Sanitized(d, v) <==> Sanitize(d, v) == v
    decreases v
  {
    SanitizeEstablishes(d, v);
    if Sanitized(d, v) {
      match v
      case List(items) =>
        forall i | 0 <= i < |items| ensures Sanitize(d, items[i]) == items[i] {
          SanitizedFixed(d, items[i]);
        }
      case Dict(entries) =>
        EntriesFixed(d, entries, |entries|);
        assert entries[..|entries|] == entries;
      case _ =>
    }
  }

  lemma {:induction false} EntriesFixed(d: Detector, entries: seq<Entry>, n: nat)
    requires Lawful(d) && n <= |entries| && Sanitized(d, Dict(entries))
    ensures SanitizeEntries(d, entries, n) == entries[..n]
    decreases entries, n
  {
    hide Lawful, Hidden, Sanitized, Sanitize, KeysOf, Assign, SanitizedEntry, CleanKey, CleanItem, Distinct;
    if n > 0 {
      EntriesFixed(d, entries, n - 1);
      var last := entries[n - 1];
      SanitizedEntryFacts(d, entries, n - 1);
      ItemFixed(d, last, n - 1);
      AssignNew(entries[..n - 1], last.key, last.value);
      assert entries[..n] == entries[..n - 1] + [entries[n - 1]];
    }
  }

  lemma {:induction false} ItemFixed(d: Detector, e: Entry, index: nat)
    requires Lawful(d) && SanitizedEntry(d, e.key, e.value) && Sanitized(d, e.value)
    ensures CleanKey(d, e.key.text, index) == e.key && CleanItem(d, e) == e.value
    decreases e
  {
    hide Hidden, Sanitized, Sanitize;
    SanitizedFixed(d, e.value);
  }

  lemma {:induction false} SanitizedEntryFacts(d: Detector, entries: seq<Entry>, i: nat)
    requires i < |entries| && Sanitized(d, Dict(entries))
    ensures SanitizedEntry(d, entries[i].key, entries[i].value) && Sanitized(d, entries[i].value)
    ensures forall j :: 0 <= j < i ==> entries[..i][j].key != entries[i].key
  {
    hide KeysOf, SanitizedEntry;
    assert KeysOf(entries)[i] == entries[i].key;
    forall j | 0 <= j < i ensures entries[..i][j].key != entries[i].key {
      assert KeysOf(entries)[j] == entries[j].key;
    }
  }

  lemma {:induction false} Idempotent(d: Detector, v: Value)
    requires Lawful(d)
    ensures Sanitize(d, Sanitize(d, v)) == Sanitize(d, v)
  {
    SanitizeEstablishes(d, v);
    SanitizedFixed(d, Sanitize(d, v));
  }

  // ----- Scanning -----

  /** No text and no key has findings, and sensitive fields are blank or placeholders. */
  ghost predicate Clean(d: Detector, v: Value) {
    match v
    case Text(t) => d.findings(t) == []
    case List(items) => forall i :: 0 <= i < |items| ==> Clean(d, items[i])
    case Tuple(items) => forall i :: 0 <= i < |items| ==> Clean(d, items[i])
    case Dict(entries) => forall i :: 0 <= i < |entries| ==> CleanField(d, entries[i]) && Clean(d, entries[i].value)
    case _ => true
  }

  ghost predicate CleanField(d: Detector, e: Entry) {
    d.findings(e.key.text) == [] && (Hidden(e.key.text, e.value) ==> Placeholder(e.value))
  }

  /** A scan finds nothing exactly in clean values, whatever the path it starts from. */
  lemma {:induction false} ScanFindsExactly(d: Detector, v: Value, path: seq<Step>)
    requires Lawful(d)
    ensures Scan(d, v, path) == {} <==> Clean(d, v)
    decreases v, 0
  {
    match v
    case Text(t) => TextScan(d, t, path);
    case List(items) => ItemsScan(d, items, |items|, path);
    case Tuple(items) => ItemsScan(d, items, |items|, path);
    case Dict(entries) => EntriesScan(d, entries, |entries|, path);
    case _ =>
  }

  lemma TextScan(d: Detector, t: string, path: seq<Step>)
    requires Lawful(d)
    ensures TextFindings(d, t, path) == {} <==> d.findings(t) == []
  {
    if d.findings(t) != [] {
      var m :| m in d.matches(t);
      assert Finding(path, m.0, m.1) in TextFindings(d, t, path);
    }
  }

  lemma {:induction false} ItemsScan(d: Detector, items: seq<Value>, n: nat, path: seq<Step>)
    requires Lawful(d) && n <= |items|
    ensures ScanItems(d, items, n, path) == {} <==> forall i :: 0 <= i < n ==> Clean(d, items[i])
    decreases items, n
  {
    if n > 0 {
      ItemsScan(d, items, n - 1, path);
      ScanFindsExactly(d, items[n - 1], path + [At(n - 1)]);
    }
  }

  lemma {:induction false} EntriesScan(d: Detector, entries: seq<Entry>, n: nat, path: seq<Step>)
    requires Lawful(d) && n <= |entries|
    ensures ScanEntries(d, entries, n, path) == {} <==>
      forall i :: 0 <= i < n ==> CleanField(d, entries[i]) && Clean(d, entries[i].value)
    decreases entries, n
  {
    hide CleanField, Lawful, ScanEntry;
    if n > 0 {
      EntriesScan(d, entries, n - 1, path);
      EntryScan(d, entries[n - 1], path);
    }
  }

  lemma {:induction false} EntryScan(d: Detector, e: Entry, path: seq<Step>)
    requires Lawful(d)
    ensures ScanEntry(d, e, path) == {} <==> CleanField(d, e) && Clean(d, e.value)
    decreases e, 1
  {
    hide Hidden, Placeholder, Clean, Scan;
    var key := e.key.text;
    ScanFindsExactly(d, e.value, path + [FieldStep(d, key)]);
    if d.findings(key) != [] {
      assert Finding(path + [HiddenField], d.findings(key)[0], d.keyDigest(key)) in KeyFindings(d, key, path);
    }
  }

  lemma MarkerIsPlaceholder()
    ensures Placeholder(Text(MARKER))
  {
  }

  lemma {:induction false} SanitizedIsClean(d: Detector, v: Value)
    requires Sanitized(d, v)
    ensures Clean(d, v)
    decreases v
  {
    hide Hidden, Placeholder;
    MarkerIsPlaceholder();
    match v
    case List(items) =>
      forall i | 0 <= i < |items| ensures Clean(d, items[i]) {
        SanitizedIsClean(d, items[i]);
      }
    case Dict(entries) =>
      forall i | 0 <= i < |entries| ensures CleanField(d, entries[i]) && Clean(d, entries[i].value) {
        assert SanitizedEntry(d, entries[i].key, entries[i].value);
        SanitizedIsClean(d, entries[i].value);
      }
    case _ =>
  }

  /** assert_value_redacted accepts every sanitized value: nothing scans after sanitizing. */
  lemma {:induction false} NothingLeftToFind(d: Detector, v: Value, path: seq<Step>)
    requires Lawful(d)
    ensures Scan(d, Sanitize(d, v), path) == {}
  {
    hide Lawful, Scan, Sanitize;
    SanitizeEstablishes(d, v);
    SanitizedIsClean(d, Sanitize(d, v));
    ScanFindsExactly(d, Sanitize(d, v), path);
  }

  /** Lists and tuples keep their length and order, each element sanitized in its place. */
  lemma {:induction false} ListsKeepOrder(d: Detector, v: Value, i: nat)
    requires (v.List? || v.Tuple?) && i < |v.items|
    ensures Sanitize(d, v).List? && |Sanitize(d, v).items| == |v.items|
    ensures Sanitize(d, v).items[i] == Sanitize(d, v.items[i])
  {
  }

  // ----- Entries a dictionary can lose -----

  function CleanKeys(d: Detector, entries: seq<Entry>): seq<Key> {
    seq(|entries|, i requires 0 <= i < |entries| => CleanKey(d, entries[i].key.text, i))
  }

  lemma NoElements()
    ensures KeysOf([]) == [] && Elements<Key>([]) == {}
  {
  }

  lemma InElements(keys: seq<Key>, key: Key)
    ensures key in keys <==> key in Elements(keys)
    ensures key in keys ==> Elements(keys) + {key} == Elements(keys)
  {
  }

  lemma {:induction false} KeysAre(d: Detector, entries: seq<Entry>, n: nat)
    requires n <= |entries|
    ensures var keys := KeysOf(SanitizeEntries(d, entries, n));
      Distinct(keys) && Elements(keys) == Elements(CleanKeys(d, entries)[..n])
    decreases n
  {
    hide CleanKey, CleanItem, Assign, KeysOf, Elements;
    NoElements();
    if n > 0 {
      KeysAre(d, entries, n - 1);
      var last := entries[n - 1];
      var key := CleanKey(d, last.key.text, n - 1);
      AssignKeys(SanitizeEntries(d, entries, n - 1), key, CleanItem(d, last));
      var before, cleaned := KeysOf(SanitizeEntries(d, entries, n - 1)), CleanKeys(d, entries);
      assert cleaned[..n] == cleaned[..n - 1] + [key];
      ElementsSnoc(cleaned[..n - 1], key);
      ElementsSnoc(before, key);
      InElements(before, key);
    }
  }

  /** A sanitized dictionary has one entry per different cleaned key, so it keeps its size unless two coincide. */
  lemma EntriesKept(d: Detector, entries: seq<Entry>)
    ensures |Sanitize(d, Dict(entries)).entries| == |Elements(CleanKeys(d, entries))|
  {
    hide KeysOf, Elements, SanitizeEntries;
    KeysAre(d, entries, |entries|);
    assert CleanKeys(d, entries)[..|entries|] == CleanKeys(d, entries);
    DistinctSize(KeysOf(SanitizeEntries(d, entries, |entries|)));
  }

  /** They can coincide: a key that already looks generated meets the generated one. */
  lemma {:induction false} CollisionDropsEntry(d: Detector, secret: string, a: Value, b: Value)
    requires Lawful(d) && d.findings(secret) != []
    ensures |Sanitize(d, Dict([Entry(Key(Generated(1), 0), a), Entry(Key(secret, 0), b)])).entries| == 1
  {
    hide Generated;
    var entries := [Entry(Key(Generated(1), 0), a), Entry(Key(secret, 0), b)];
    EntriesKept(d, entries);
    var keys := CleanKeys(d, entries);
    assert keys == [Key(Generated(1), 0), Key(Generated(1), 0)];
    assert Elements(keys) == {Key(Generated(1), 0)};
  }

  // ----- Where one entry goes -----

  /** Assigning a key puts the entry there and moves no entry under another key. */
  lemma {:induction false} AssignPlaces(entries: seq<Entry>, key: Key, v: Value)
    ensures Entry(key, v) in Assign(entries, key, v)
    ensures forall e :: e in entries && e.key != key ==> e in Assign(entries, key, v)
  {
    if entries != [] && entries[0].key != key {
      AssignPlaces(entries[1..], key, v);
      assert forall e :: e in entries ==> e == entries[0] || e in entries[1..];
    }
  }

  lemma {:induction false} EntryPlaced(d: Detector, entries: seq<Entry>, i: nat, n: nat)
    requires i < n <= |entries|
    requires forall j :: i < j < n ==> CleanKey(d, entries[j].key.text, j) != CleanKey(d, entries[i].key.text, i)
    ensures Entry(CleanKey(d, entries[i].key.text, i), CleanItem(d, entries[i])) in SanitizeEntries(d, entries, n)
    decreases n
  {
    hide CleanKey, CleanItem, Assign;
    var last := entries[n - 1];
    AssignPlaces(SanitizeEntries(d, entries, n - 1), CleanKey(d, last.key.text, n - 1), CleanItem(d, last));
    if i < n - 1 {
      EntryPlaced(d, entries, i, n - 1);
    }
  }

  /** The key an entry goes under: its text, or a numbered placeholder if a pattern finds something in it. */
  function Destination(d: Detector, entries: seq<Entry>, i: nat): Key
    requires i < |entries|
  {
    if d.findings(entries[i].key.text) == [] then Key(entries[i].key.text, 0)
    else Key("[REDACTED:key:" + Digits(i) + "]", 0)
  }

  /**
   Every entry that no later one displaces is in the sanitized dictionary: with the marker as its
   value if its key reads like a listed secret and the value is not blank, sanitized otherwise.
   */
  lemma {:induction false} EntryDestination(d: Detector, entries: seq<Entry>, i: nat)
    requires i < |entries|
    requires forall j :: i < j < |entries| ==> Destination(d, entries, j) != Destination(d, entries, i)
    ensures var item := entries[i].value;
      var secret := NamesSecret(entries[i].key.text) && item !in {Null, Text(""), List([]), Dict([])};
      Entry(Destination(d, entries, i), if secret then Text("[REDACTED:sensitive_field]") else Sanitize(d, item))
      in Sanitize(d, Dict(entries)).entries
  {
    hide SensitiveKey, NamesSecret, Digits;
    SensitiveExactly(entries[i].key.text);
    assert forall j :: 0 <= j < |entries| ==> CleanKey(d, entries[j].key.text, j) == Destination(d, entries, j);
    EntryPlaced(d, entries, i, |entries|);
  }

  /** A value under such a key, neither blank nor a placeholder, is reported with its digest. */
  lemma {:induction false} SecretReported(d: Detector, entries: seq<Entry>, i: nat, path: seq<Step>)
    requires i < |entries| && NamesSecret(entries[i].key.text)
    requires entries[i].value !in {Null, Text(""), List([]), Dict([])}
    requires entries[i].value.Text? ==>
      !("[REDACTED" <= entries[i].value.text && entries[i].value.text[|entries[i].value.text| - 1] == ']')
    ensures var key := entries[i].key.text;
      Finding(path + [if d.findings(key) == [] then Field(key) else HiddenField], "sensitive_field",
              d.itemDigest(entries[i].value)) in Scan(d, Dict(entries), path)
  {
    hide SensitiveKey, NamesSecret;
    SensitiveExactly(entries[i].key.text);
    ScannedInside(d, entries, i, |entries|, path);
  }

  lemma {:induction false} ScannedInside(d: Detector, entries: seq<Entry>, i: nat, n: nat, path: seq<Step>)
    requires i < n <= |entries|
    ensures ScanEntry(d, entries[i], path) <= ScanEntries(d, entries, n, path)
    decreases n
  {
    hide ScanEntry;
    if i < n - 1 {
      ScannedInside(d, entries, i, n - 1, path);
    }
  }

  function ReadDigits(s: string): int {
    if s == "" then 0 else ReadDigits(s[..|s| - 1]) * 10 + (s[|s| - 1] as int - '0' as int)
  }

  /** The number in a generated key is the entry's index, so different entries get different keys. */
  lemma {:induction false} DigitsRead(n: nat)
    ensures ReadDigits(Digits(n)) == n
  {
    var text := Digits(n);
    assert text[|text| - 1] as int - '0' as int == n % 10;
    if n >= 10 {
      DigitsRead(n / 10);
      assert text[..|text| - 1] == Digits(n / 10);
    } else {
      assert text[..|text| - 1] == "";
    }
  }
}
