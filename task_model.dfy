/** The task record of the document store: its fields, status enumeration,
    defaults and the constraints of its schema. */
module TaskModel {
  import opened Common

  /** The closed `status` enumeration. */
  datatype Status = Pending | Processing | Completed | Failed

  /** The values a `Mixed` field such as `result` can hold (numbers are kept
      integral; floating point is not modelled). */
  datatype Json =
    | JNull
    | JBool(b: bool)
    | JNum(n: int)
    | JStr(s: string)
    | JArray(items: seq<Json>)
    | JObject(fields: seq<(string, Json)>)

  /** JavaScript truthiness, which decides `x || undefined`. */
  predicate Truthy(j: Json)
  {
    match j
    case JNull => false
    case JBool(b) => b
    case JNum(n) => n != 0
    case JStr(s) => s != ""
    case JArray(_) => true
    case JObject(_) => true
  }

  const MinProgress: int := 0
  const MaxProgress: int := 100
  const DefaultStatus: Status := Pending
  const DefaultProgress: int := 0
  const DefaultRetries: nat := 0

  /** A stored task document. `error` null is None; `retries` may be missing
      (None), which is why readers write `retries || 0`; timestamps are
      readings of an abstract clock. */
  datatype TaskRecord = TaskRecord(
    id: string,
    name: string,
    description: string,
    status: Status,
    progress: int,
    result: Json,
    error: Option<string>,
    retries: Option<nat>,
    createdAt: nat,
    updatedAt: nat)

  /** `retries || 0` */
  function RetryCount(t: TaskRecord): nat
  {
    if t.retries.Some? then t.retries.value else 0
  }

  /** The characters String.prototype.trim removes: WhiteSpace (tab, vertical
      tab, form feed, space, no-break space, byte order mark and the space
      separators) and LineTerminator. */
  predicate IsTrimmable(c: char)
  {
    c in {'\t', '\n', '\U{000B}', '\U{000C}', '\r', ' ', '\U{00A0}', '\U{1680}',
          '\U{2028}', '\U{2029}', '\U{202F}', '\U{205F}', '\U{3000}', '\U{FEFF}'}
    || ('\U{2000}' <= c <= '\U{200A}')
  }

  function TrimStart(s: string): string
  {
    if |s| > 0 && IsTrimmable(s[0]) then TrimStart(s[1..]) else s
  }

  function TrimEnd(s: string): string
  {
    if |s| > 0 && IsTrimmable(s[|s| - 1]) then TrimEnd(s[..|s| - 1]) else s
  }

  /** The `trim: true` setter of the name and description paths. */
  function Trim(s: string): string
  {
    TrimEnd(TrimStart(s))
  }

  /** A string neither starting nor ending with a trimmable character. */
  predicate IsTrimmed(s: string)
  {
    s == [] || (!IsTrimmable(s[0]) && !IsTrimmable(s[|s| - 1]))
  }

  /** TrimStart drops the prefix `s[..i]`, made only of trimmable
      characters, and stops at the first character that is not. */
  lemma {:induction false} TrimStartShape(s: string) returns (i: nat)
    ensures TrimStart(s) == [] || !IsTrimmable(TrimStart(s)[0])
    ensures i <= |s| && TrimStart(s) == s[i..]
    ensures forall k :: 0 <= k < i ==> IsTrimmable(s[k])
    decreases |s|
  {
    if |s| > 0 && IsTrimmable(s[0]) {
      var i' := TrimStartShape(s[1..]);
      i := i' + 1;
      assert s[1..][i'..] == s[i..];
      forall k | 0 <= k < i ensures IsTrimmable(s[k]) {
        if k > 0 {
          assert s[k] == s[1..][k - 1];
        }
      }
    } else {
      i := 0;
    }
  }

  /** TrimEnd drops the suffix `s[j..]`, made only of trimmable characters,
      and stops at the last character that is not. */
  lemma {:induction false} TrimEndShape(s: string) returns (j: nat)
    ensures TrimEnd(s) == [] || !IsTrimmable(TrimEnd(s)[|TrimEnd(s)| - 1])
    ensures j <= |s| && TrimEnd(s) == s[..j]
    ensures forall k :: j <= k < |s| ==> IsTrimmable(s[k])
    decreases |s|
  {
    if |s| > 0 && IsTrimmable(s[|s| - 1]) {
      var p := s[..|s| - 1];
      j := TrimEndShape(p);
      assert p[..j] == s[..j];
      forall k | j <= k < |s| ensures IsTrimmable(s[k]) {
        if k < |p| {
          assert s[k] == p[k];
        }
      }
    } else {
      j := |s|;
    }
  }

  /** Trimming yields a contiguous part of the input, with no trimmable
      character left at either end, and everything it cut off before and
      after that part is trimmable. */
  lemma TrimShape(s: string)
    ensures IsTrimmed(Trim(s))
    ensures exists i, j :: TrimCut(s, i, j)
  {
    TrimIsSlice(s);
    TrimIsTrimmed(s);
  }

  /** `s[i..j]` is what trimming keeps: everything before `i` and from `j`
      on is trimmable. */
  predicate TrimCut(s: string, i: int, j: int)
  {
    0 <= i <= j <= |s| && Trim(s) == s[i..j]
    && (forall k :: 0 <= k < i ==> IsTrimmable(s[k]))
    && (forall k :: j <= k < |s| ==> IsTrimmable(s[k]))
  }

  lemma TrimIsSlice(s: string)
    ensures exists i, j :: TrimCut(s, i, j)
  {
    var i, j := TrimBounds(s);
  }

  lemma TrimBounds(s: string) returns (i: nat, j: nat)
    ensures TrimCut(s, i, j)
  {
    i := TrimStartShape(s);
    var n := TrimEndShape(TrimStart(s));
    j := i + n;
    SuffixOfSuffix(s, i, n);
  }

  /** Cutting `s[i..]` at `n` is cutting `s` at `i + n`, and a trimmable tail
      of `s[i..]` from `n` is the tail of `s` from `i + n`. */
  lemma SuffixOfSuffix(s: string, i: nat, n: nat)
    requires i <= |s| && n <= |s| - i
    ensures s[i..][..n] == s[i..i + n]
    ensures (forall k :: n <= k < |s[i..]| ==> IsTrimmable(s[i..][k])) ==>
            (forall k :: i + n <= k < |s| ==> IsTrimmable(s[k]))
  {
    if forall k :: n <= k < |s[i..]| ==> IsTrimmable(s[i..][k]) {
      forall k | i + n <= k < |s| ensures IsTrimmable(s[k]) {
        assert s[k] == s[i..][k - i];
      }
    }
  }

  lemma TrimIsTrimmed(s: string)
    ensures IsTrimmed(Trim(s))
  {
    var t := TrimStart(s);
    var _ := TrimStartShape(s);
    var j := TrimEndShape(t);
    if Trim(s) != [] {
      assert Trim(s)[0] == t[0];
    }
  }

  /** Trimming a trimmed string changes nothing, so the stored name and
      description are fixed points of the setter. */
  lemma TrimIdempotent(s: string)
    ensures Trim(Trim(s)) == Trim(s)
  {
    TrimShape(s);
    var t := Trim(s);
    assert TrimStart(t) == t;
    assert TrimEnd(t) == t;
  }

  /** A string trims to the empty string exactly when every character of it
      is trimmable. */
  lemma TrimEmptyIff(s: string)
    ensures Trim(s) == [] <==> forall k :: 0 <= k < |s| ==> IsTrimmable(s[k])
  {
    var i, j := TrimBounds(s);
    if Trim(s) != [] {
      assert s[i] == Trim(s)[0];
      TrimIsTrimmed(s);
    }
  }

  /** The schema paths whose `required` check fails, in schema order: a
      required string path fails on the empty string, and the trim setter
      runs first on name and description. */
  function MissingRequired(id: string, name: string, description: string): (paths: seq<string>)
    ensures forall p :: p in paths ==> p in ["id", "name", "description"]
    ensures "id" in paths <==> id == ""
    ensures "name" in paths <==> Trim(name) == ""
    ensures "description" in paths <==> Trim(description) == ""
    ensures |paths| <= 3
  {
    (if id == "" then ["id"] else [])
    + (if Trim(name) == "" then ["name"] else [])
    + (if Trim(description) == "" then ["description"] else [])
  }

  /** The document `new Task({...}).save()` stores: the given id, the trimmed
      name and description, and the schema defaults for everything else. */
  function NewRecord(id: string, name: string, description: string, now: nat): TaskRecord
  {
    TaskRecord(id, Trim(name), Trim(description), DefaultStatus, DefaultProgress,
               JNull, None, Some(DefaultRetries), now, now)
  }

  predicate ProgressInBounds(p: int)
  {
    MinProgress <= p <= MaxProgress
  }

  /** The fields fixed at creation satisfy the schema: id present, name and
      description present and trimmed. */
  predicate FixedFieldsValid(t: TaskRecord)
  {
    t.id != "" && t.name != "" && IsTrimmed(t.name) && t.description != "" && IsTrimmed(t.description)
  }

  /** Every constraint of the schema, plus the timestamp order. */
  predicate ValidTask(t: TaskRecord)
  {
    FixedFieldsValid(t) && ProgressInBounds(t.progress) && t.createdAt <= t.updatedAt
  }

  /** A document that passes validation is a valid task carrying the schema
      defaults. */
  lemma NewRecordValid(id: string, name: string, description: string, now: nat)
    requires MissingRequired(id, name, description) == []
    ensures ValidTask(NewRecord(id, name, description, now))
    ensures var t := NewRecord(id, name, description, now);
      t.status == Pending && t.progress == 0 && t.result == JNull && t.error == None
      && RetryCount(t) == 0 && t.name == Trim(name) && t.description == Trim(description)
  {
    TrimShape(name);
    TrimShape(description);
  }
}
