/**
 * `InitCommand::changeComposer` (src/InitCommand.php:349-384) as a rule on the
 * decoded composer.json: make sure "resources/php" is among the directories
 * `autoload.psr-4["App\\"]` lists, appending it at most once, and rewrite the
 * file only when something was appended.
 */
module Composer {
  import opened Wrappers
  import opened Json

  const Autoload: string := "autoload"
  const Psr4: string := "psr-4"
  const AppNamespace: string := "App\\"
  const PhpOutput: string := "resources/php"

  /**
   * `$x == "resources/php"` for a decoded value: the same string, or `true`
   * (a non-empty string converts to true); never null, false, a number or an
   * array.
   */
  function MatchesOutput(x: Value): (b: bool)
    ensures b <==> LooseEqualsText(x, PhpOutput)
  {
    DecimalLead(if x.Num? then x.n else 0);
    x == Str(PhpOutput) || x == Bool(true)
  }

  /** `in_array("resources/php", $items)`: some element is loosely equal to it. */
  function InArray(items: seq<Value>): (b: bool)
    ensures b <==> exists i :: 0 <= i < |items| && LooseEqualsText(items[i], PhpOutput)
  {
    exists i :: 0 <= i < |items| && MatchesOutput(items[i])
  }

  /** How often `x` occurs in `items`. */
  function Occurrences(items: seq<Value>, x: Value): nat {
    if items == [] then 0
    else (if items[0] == x then 1 else 0) + Occurrences(items[1..], x)
  }

  lemma {:induction false} OccurrencesAppend(items: seq<Value>, x: Value)
    ensures Occurrences(items + [x], x) == Occurrences(items, x) + 1
  {
    if items != [] {
      assert (items + [x])[1..] == items[1..] + [x];
      OccurrencesAppend(items[1..], x);
    }
  }

  /** What `changeComposer` does with the document. */
  datatype Edit =
    | Skip         // returns early: no file, not decodable or falsy, or a key missing
    | Keep         // the list already holds the directory; the file is not written
    | Rewrite(doc: Value)  // the directory was appended; `doc` is written back
    | Unsupported  // PHP throws here or turns the list into a keyed map; not modelled

  /**
   * `psr-4` as an associative array a string key can be assigned into: an
   * object, the empty array (PHP decodes `{}` and `[]` alike), or `false`,
   * which PHP 8 turns into an empty array on the assignment (with only a
   * deprecation notice).
   */
  function Assignable(psr4: Value): (r: Option<seq<(string, Value)>>)
    ensures r.Some? ==> forall k :: Member(Obj(r.value), k) == Member(psr4, k)
  {
    match psr4
    case Obj(ms) => Some(ms)
    case Arr(items) => if items == [] then Some([]) else None
    case Bool(b) => if b then None else Some([])
    case _ => None
  }

  /**
   * The array `in_array` searches: `App\\` itself, or `[]` when it was not set.
   * A scalar has none (`in_array` rejects it with a TypeError).
   */
  function Haystack(app: Value): Option<seq<Value>> {
    match app
    case Null => Some([])
    case Arr(items) => Some(items)
    case Obj(ms) => Some(Values(ms))
    case _ => None
  }

  /** `App\\` is (or becomes) a list, so `[]=` appends the next element. */
  predicate Appendable(app: Value) {
    app == Null || app.Arr? || app == Obj([])
  }

  /** The `App\\` entry of `autoload.psr-4`, `Null` when any level is missing. */
  function AppDirs(doc: Value): Value {
    Member(Member(Member(doc, Autoload), Psr4), AppNamespace)
  }

  /** The edit `changeComposer` makes, given what `json_decode` returned (`None` for null). */
  function Change(decoded: Option<Value>): Edit {
    if decoded.None? || !Truthy(decoded.value) then Skip
    else ChangeDoc(decoded.value)
  }

  /** The edit once the document is known to be truthy. */
  function ChangeDoc(doc: Value): Edit {
      var autoload := Member(doc, Autoload);
      var psr4 := Member(autoload, Psr4);
      if psr4 == Null then Skip
      else
        match Assignable(psr4)
        case None => Unsupported
        case Some(pms) =>
          var app := Member(Obj(pms), AppNamespace);
          match Haystack(app)
          case None => Unsupported
          case Some(items) =>
            if InArray(items) then Keep
            else if !Appendable(app) then Unsupported
            else
              var psr4' := Obj(Assign(pms, AppNamespace, Arr(items + [Str(PhpOutput)])));
              Rewrite(Obj(Assign(doc.members, Autoload, Obj(Assign(autoload.members, Psr4, psr4')))))
  }

  /**
   * The early returns: the document is left alone exactly when it did not
   * decode, is falsy, or lacks `autoload` or `autoload.psr-4`.
   */
  lemma SkipsIffKeysMissing(decoded: Option<Value>)
    ensures Change(decoded) == Skip <==>
      || decoded.None?
      || !Truthy(decoded.value)
      || !IsSet(decoded.value, Autoload)
      || !IsSet(Member(decoded.value, Autoload), Psr4)
  {
  }

  /**
   * The file is kept as it is exactly when the `App\\` list already holds the
   * directory (loosely, as `in_array` compares).
   */
  lemma KeepsIffPresent(decoded: Option<Value>)
    ensures Change(decoded) == Keep <==>
      && decoded.Some? && Truthy(decoded.value)
      && IsSet(Member(decoded.value, Autoload), Psr4)
      && Assignable(Member(Member(decoded.value, Autoload), Psr4)).Some?
      && Haystack(AppDirs(decoded.value)).Some?
      && InArray(Haystack(AppDirs(decoded.value)).value)
  {
  }

  /**
   * What a rewrite is made of: the document is an object whose `autoload`
   * object holds a `psr-4` that can take the key, the `App\\` list lacks the
   * directory and can be appended to, and the new document is the three
   * nested assignments of the list with "resources/php" appended.
   */
  lemma RewriteShape(decoded: Option<Value>)
    requires Change(decoded).Rewrite?
    ensures decoded.Some? && decoded.value.Obj?
    ensures var doc := decoded.value;
      var autoload := Member(doc, Autoload);
      var psr4 := Member(autoload, Psr4);
      && autoload.Obj? && Lookup(doc.members, Autoload) == Some(autoload)
      && psr4 != Null && Psr4 in Keys(autoload.members)
      && Assignable(psr4).Some?
      && var pms := Assignable(psr4).value;
      && AppDirs(doc) == Member(Obj(pms), AppNamespace)
      && Haystack(AppDirs(doc)).Some?
      && !InArray(Haystack(AppDirs(doc)).value)
      && Change(decoded).doc == Obj(Assign(doc.members, Autoload, Obj(Assign(autoload.members, Psr4,
           Obj(Assign(pms, AppNamespace, Arr(Haystack(AppDirs(doc)).value + [Str(PhpOutput)])))))))
  {
    var doc := decoded.value;
    var autoload := Member(doc, Autoload);
    var psr4 := Member(autoload, Psr4);
    assert Lookup(autoload.members, Psr4).Some?;
  }

  /**
   * When the document is rewritten, the `App\\` list is the old one (empty
   * when it was missing) with "resources/php" appended: the directory was
   * absent before and occurs exactly once more afterwards.
   */
  lemma RewriteAppendsOnce(decoded: Option<Value>)
    requires Change(decoded).Rewrite?
    ensures Haystack(AppDirs(decoded.value)).Some?
    ensures var before := Haystack(AppDirs(decoded.value)).value;
      && !InArray(before)
      && AppDirs(Change(decoded).doc) == Arr(before + [Str(PhpOutput)])
      && Occurrences(AppDirs(Change(decoded).doc).items, Str(PhpOutput)) == Occurrences(before, Str(PhpOutput)) + 1
  {
    RewriteShape(decoded);
    var doc := decoded.value;
    var autoload := Member(doc, Autoload);
    var pms := Assignable(Member(autoload, Psr4)).value;
    var before := Haystack(AppDirs(doc)).value;
    var list := Arr(before + [Str(PhpOutput)]);
    NestedAssign(doc.members, autoload.members, pms, list);
    OccurrencesAppend(before, Str(PhpOutput));
  }

  /**
   * A rewrite changes nothing but `autoload.psr-4["App\\"]`: every other key
   * at each of the three levels keeps its value; the top-level keys and the
   * keys of `autoload` keep their order; the keys of `psr-4` are the old ones,
   * with `App\\` appended when it was not among them (`psr-4` given as `[]`
   * or `false` had none).
   */
  lemma RewriteLeavesRestAlone(decoded: Option<Value>)
    requires Change(decoded).Rewrite?
    ensures var doc, doc' := decoded.value, Change(decoded).doc;
      && doc.Obj? && doc'.Obj? && Keys(doc'.members) == Keys(doc.members)
      && Member(doc, Autoload).Obj? && Member(doc', Autoload).Obj?
      && Keys(Member(doc', Autoload).members) == Keys(Member(doc, Autoload).members)
      && Assignable(Member(Member(doc, Autoload), Psr4)).Some?
      && Member(Member(doc', Autoload), Psr4).Obj?
      && (var pms := Assignable(Member(Member(doc, Autoload), Psr4)).value;
          Keys(Member(Member(doc', Autoload), Psr4).members)
            == Keys(pms) + (if AppNamespace in Keys(pms) then [] else [AppNamespace]))
      && (forall k :: k != Autoload ==> Member(doc', k) == Member(doc, k))
      && (forall k :: k != Psr4 ==> Member(Member(doc', Autoload), k) == Member(Member(doc, Autoload), k))
      && (forall k :: k != AppNamespace ==>
            Member(Member(Member(doc', Autoload), Psr4), k) == Member(Member(Member(doc, Autoload), Psr4), k))
  {
    RewriteShape(decoded);
    var doc := decoded.value;
    var autoload := Member(doc, Autoload);
    var psr4 := Member(autoload, Psr4);
    var pms := Assignable(psr4).value;
    NestedAssign(doc.members, autoload.members, pms, Arr(Haystack(AppDirs(doc)).value + [Str(PhpOutput)]));
  }

  /**
   * The three nested assignments of a rewrite, on the members of the document,
   * of `autoload` (which holds `psr-4`) and of `psr-4`.
   */
  lemma NestedAssign(ms: seq<(string, Value)>, autoload: seq<(string, Value)>, pms: seq<(string, Value)>, list: Value)
    requires Lookup(ms, Autoload) == Some(Obj(autoload)) && Psr4 in Keys(autoload)
    ensures var doc' := Obj(Assign(ms, Autoload, Obj(Assign(autoload, Psr4, Obj(Assign(pms, AppNamespace, list))))));
      && Keys(doc'.members) == Keys(ms)
      && Member(doc', Autoload) == Obj(Assign(autoload, Psr4, Obj(Assign(pms, AppNamespace, list))))
      && Keys(Member(doc', Autoload).members) == Keys(autoload)
      && Member(Member(doc', Autoload), Psr4) == Obj(Assign(pms, AppNamespace, list))
      && Keys(Assign(pms, AppNamespace, list)) == Keys(pms) + (if AppNamespace in Keys(pms) then [] else [AppNamespace])
      && (forall k :: k != Autoload ==> Member(doc', k) == Member(Obj(ms), k))
      && (forall k :: k != Psr4 ==> Member(Member(doc', Autoload), k) == Member(Obj(autoload), k))
      && (forall k :: k != AppNamespace ==> Member(Member(Member(doc', Autoload), Psr4), k) == Member(Obj(pms), k))
  {
    var psr4' := Assign(pms, AppNamespace, list);
    var autoload' := Assign(autoload, Psr4, Obj(psr4'));
    var doc' := Assign(ms, Autoload, Obj(autoload'));
    assert Autoload in Keys(ms);
    MemberAssign(pms, AppNamespace, list);
    MemberAssign(autoload, Psr4, Obj(psr4'));
    MemberAssign(ms, Autoload, Obj(autoload'));
    AssignKeys(pms, AppNamespace, list);
    AssignKeys(autoload, Psr4, Obj(psr4'));
    AssignKeys(ms, Autoload, Obj(autoload'));
  }

  /** Running the rule on the document it wrote leaves that document alone. */
  lemma {:induction false} Idempotent(decoded: Option<Value>)
    requires Change(decoded).Rewrite?
    ensures Change(Some(Change(decoded).doc)) == Keep
  {
    var doc' := Change(decoded).doc;
    RewriteAppendsOnce(decoded);
    var before := Haystack(AppDirs(decoded.value)).value;
    var after := before + [Str(PhpOutput)];
    assert AppDirs(doc') == Arr(after);
    var autoload' := Member(doc', Autoload);
    var psr4' := Member(autoload', Psr4);
    assert psr4'.Obj? && autoload'.Obj? && doc'.Obj?;
    assert Lookup(doc'.members, Autoload).Some?;
    assert Truthy(doc');
    assert Haystack(AppDirs(doc')) == Some(after);
    assert MatchesOutput(after[|before|]);
    KeepsIffPresent(Some(doc'));
  }

  /**
   * The rule run on the file a rewrite wrote, as `json_decode` reads it back
   * (`Canon` of the rewritten document: objects keyed "0", "1", ..., the
   * empty ones among them, come back as lists), finds the directory listed
   * and keeps the file.
   */
  lemma IdempotentUpToCanon(decoded: Option<Value>)
    requires Change(decoded).Rewrite?
    ensures Change(Some(Canon(Change(decoded).doc))) == Keep
  {
    var doc' := Change(decoded).doc;
    RewriteAppendsOnce(decoded);
    var after := Haystack(AppDirs(decoded.value)).value + [Str(PhpOutput)];
    assert AppDirs(doc') == Arr(after);
    CanonKeeps(doc', after);
  }

  /**
   * A document whose `autoload.psr-4["App\\"]` list ends with the directory
   * is kept once it has been through `Canon`.
   */
  lemma CanonKeeps(doc: Value, list: seq<Value>)
    requires AppDirs(doc) == Arr(list) && list != [] && list[|list| - 1] == Str(PhpOutput)
    ensures Change(Some(Canon(doc))) == Keep
  {
    CanonAppDirs(doc);
    CanonList(list);
    var items := Canon(Arr(list)).items;
    assert Canon(Str(PhpOutput)) == Str(PhpOutput);
    assert MatchesOutput(items[|list| - 1]);
    KeepWhenListed(Canon(doc));
  }

  /** A non-empty document whose `App\\` list holds the directory is kept. */
  lemma KeepWhenListed(doc: Value)
    requires doc.Obj? && doc.members != [] && Member(Member(doc, Autoload), Psr4).Obj?
    requires AppDirs(doc).Arr? && InArray(AppDirs(doc).items)
    ensures Change(Some(doc)) == Keep
  {
    KeepsIffPresent(Some(doc));
  }

  /**
   * The path `changeComposer` follows survives `Canon`: when it leads to a
   * set `App\` entry, each level of the canonical document is a non-empty
   * object and the entry is `Canon` of the old one.
   */
  lemma CanonAppDirs(doc: Value)
    requires AppDirs(doc) != Null
    ensures Canon(doc).Obj? && Canon(doc).members != []
    ensures Member(Canon(doc), Autoload) == Canon(Member(doc, Autoload))
    ensures Member(Canon(doc), Autoload).Obj?
    ensures Member(Member(Canon(doc), Autoload), Psr4) == Canon(Member(Member(doc, Autoload), Psr4))
    ensures Member(Member(Canon(doc), Autoload), Psr4).Obj?
    ensures AppDirs(Canon(doc)) == Canon(AppDirs(doc))
  {
    var autoload := Member(doc, Autoload);
    var psr4 := Member(autoload, Psr4);
    KeysStartWithLetters();
    MemberOfCanon(doc, Autoload);
    MemberOfCanon(autoload, Psr4);
    MemberOfCanon(psr4, AppNamespace);
  }

  /** None of the three keys on the path starts like a number. */
  lemma KeysStartWithLetters()
    ensures Autoload != [] && Autoload[0] !in "-0123456789"
    ensures Psr4 != [] && Psr4[0] !in "-0123456789"
    ensures AppNamespace != [] && AppNamespace[0] !in "-0123456789"
  {
  }
}
