/**
 * applyColumnDefinition: the translation of one JSON column description into
 * the ordered Blueprint calls it makes. The Blueprint is represented by the
 * sequence of directives appended to it; a call made on the column object
 * returned by a column call (`->nullable()`, `->default(...)`) appears right
 * after that column call.
 */
module ColumnTranslator {
  import opened Wrappers
  import opened PhpValues

  /** A column description whose name and type passed validation as strings; modifiers as sent (None: key missing). */
  datatype ColumnSpec = ColumnSpec(name: string, columnType: string, modifiers: Option<PVal>)

  /** One Blueprint call. */
  datatype Directive =
      // column calls
    | Id                                   // $table->id()
    | Timestamps                           // $table->timestamps()
    | ForeignId(column: string)            // $table->foreignId($name)
    | Enum(column: string, allowed: PVal)  // $table->enum($name, $values)
    | StringLen(column: string, length: PVal)  // $table->string($name, $length)
    | Base(kind: string, column: string)   // $table->$type($name)
      // calls on a foreignId column object
    | Constrained(table: string)           // ->constrained($table)
    | ConstrainedInferred                  // ->constrained(), target table guessed from the column name
    | OnDelete(action: PVal)
    | OnUpdate(action: PVal)
      // column modifiers
    | Nullable
    | Unsigned
    | Default(value: PVal)
    | Comment(text: PVal)
      // table-level index commands
    | Unique(column: string)
    | Index(column: string)
    | Primary(column: string)

  /** Why the translation raises instead of returning; the controller answers 500 in every case. */
  datatype ColumnError =
    | ModifiersNotArray                 // a scalar where the modifiers array should be
    | EnumWithoutValues                 // $table->enum($name) called with one argument
    | UnknownColumnType(kind: string)   // no Blueprint method of that name

  /** The calls that create a column of the column description. */
  predicate IsBase(d: Directive) {
    d.ForeignId? || d.Enum? || d.StringLen? || d.Base?
  }

  predicate IsReferenceClause(d: Directive) {
    d.Constrained? || d.ConstrainedInferred? || d.OnDelete? || d.OnUpdate?
  }

  predicate IsColumnModifier(d: Directive) {
    d.Nullable? || d.Unsigned? || d.Default? || d.Comment?
  }

  predicate IsIndexCommand(d: Directive) {
    d.Unique? || d.Index? || d.Primary?
  }

  /** The modifier keys the translator reads; every other key is ignored. */
  const RecognisedKeys: set<string> :=
    {"constrained", "onDelete", "onUpdate", "values", "length",
     "nullable", "unsigned", "default", "comment", "unique", "index", "primary"}

  /** The types `$table->$type($name)` is reached with, other than foreignId and enum. */
  const ColumnMethods: set<string> := {"string", "text", "integer", "boolean", "date", "datetime", "float", "double"}

  /**
   * `$column['modifiers'] ?? []`. A list has no string keys, so it reads like
   * an empty dictionary; a scalar makes `array_key_exists` raise.
   */
  function ModifierMap(modifiers: Option<PVal>): (r: Option<map<string, PVal>>)
    ensures r.None? <==> modifiers.Some? && !modifiers.value.PNull? && !IsArray(modifiers.value)
    ensures modifiers.Some? && modifiers.value.PDict? ==> r == Some(modifiers.value.entries)
    ensures modifiers.None? || modifiers.value.PNull? || modifiers.value.PList? ==> r == Some(map[])
  {
    match modifiers
    case None => Some(map[])
    case Some(PNull) => Some(map[])
    case Some(PDict(entries)) => Some(entries)
    case Some(PList(_)) => Some(map[])
    case Some(_) => None
  }

  // Lines 184-198, one function per `if`: calls on the foreignId column object.

  function WithConstraint(s: seq<Directive>, m: map<string, PVal>): seq<Directive> {
    if EmptyAt(m, "constrained") then s
    else if m["constrained"].PStr? then s + [Constrained(m["constrained"].s)]
    else s + [ConstrainedInferred]
  }

  function WithOnDelete(s: seq<Directive>, m: map<string, PVal>): seq<Directive> {
    if EmptyAt(m, "onDelete") then s else s + [OnDelete(m["onDelete"])]
  }

  function WithOnUpdate(s: seq<Directive>, m: map<string, PVal>): seq<Directive> {
    if EmptyAt(m, "onUpdate") then s else s + [OnUpdate(m["onUpdate"])]
  }

  /** Lines 181-200: the foreignId column and the calls made on it; nothing for other types. */
  function ForeignIdPrelude(name: string, columnType: string, m: map<string, PVal>): seq<Directive> {
    if columnType != "foreignId" then []
    else WithOnUpdate(WithOnDelete(WithConstraint([ForeignId(name)], m), m), m)
  }

  /** Lines 203-211: the column call whose column object receives the modifiers. */
  function BaseDirective(name: string, columnType: string, m: map<string, PVal>): (r: Result<Directive, ColumnError>)
    ensures r.Success? ==> IsBase(r.value) && r.value.column == name
  {
    if columnType == "enum" && IssetAt(m, "values") && IsArray(m["values"]) then Success(Enum(name, m["values"]))
    else if columnType == "string" && IssetAt(m, "length") then Success(StringLen(name, m["length"]))
    else if columnType == "enum" then Failure(EnumWithoutValues)
    else if columnType == "foreignId" then Success(ForeignId(name))
    else if columnType in ColumnMethods then Success(Base(columnType, name))
    else Failure(UnknownColumnType(columnType))
  }

  // Lines 214-228, one function per `if`: calls on the column object.

  function WithNullable(s: seq<Directive>, m: map<string, PVal>): seq<Directive> {
    if EmptyAt(m, "nullable") then s else s + [Nullable]
  }

  /** `method_exists($columnObj, 'unsigned')` is the caller-supplied `hasUnsigned`. */
  function WithUnsigned(s: seq<Directive>, base: Directive, m: map<string, PVal>, hasUnsigned: Directive -> bool): seq<Directive> {
    if !EmptyAt(m, "unsigned") && hasUnsigned(base) then s + [Unsigned] else s
  }

  function WithDefault(s: seq<Directive>, m: map<string, PVal>): seq<Directive> {
    if KeyExists(m, "default") then s + [Default(m["default"])] else s
  }

  function WithComment(s: seq<Directive>, m: map<string, PVal>): seq<Directive> {
    if EmptyAt(m, "comment") then s else s + [Comment(m["comment"])]
  }

  // Lines 231-241: index commands on the table.

  function WithUnique(s: seq<Directive>, name: string, m: map<string, PVal>): seq<Directive> {
    if EmptyAt(m, "unique") then s else s + [Unique(name)]
  }

  function WithIndex(s: seq<Directive>, name: string, m: map<string, PVal>): seq<Directive> {
    if EmptyAt(m, "index") then s else s + [Index(name)]
  }

  function WithPrimary(s: seq<Directive>, name: string, m: map<string, PVal>): seq<Directive> {
    if EmptyAt(m, "primary") then s else s + [Primary(name)]
  }

  /** The column call followed by its modifiers and the index commands on its name. */
  function ColumnPart(name: string, base: Directive, m: map<string, PVal>, hasUnsigned: Directive -> bool): seq<Directive> {
    var mods := WithComment(WithDefault(WithUnsigned(WithNullable([base], m), base, m, hasUnsigned), m), m);
    WithPrimary(WithIndex(WithUnique(mods, name, m), name, m), name, m)
  }

  /** applyColumnDefinition (lines 174-242). */
  function Translate(c: ColumnSpec, hasUnsigned: Directive -> bool): Result<seq<Directive>, ColumnError>
  {
    match ModifierMap(c.modifiers)
    case None => Failure(ModifiersNotArray)
    case Some(m) =>
      match BaseDirective(c.name, c.columnType, m)
      case Failure(e) => Failure(e)
      case Success(base) => Success(ForeignIdPrelude(c.name, c.columnType, m) + ColumnPart(c.name, base, m, hasUnsigned))
  }

  // ---------------------------------------------------------------------
  // Order of the directives
  // ---------------------------------------------------------------------

  /**
   * The place of a directive in the fixed order: column call, reference
   * clauses, column modifiers, index commands.
   */
  function Stage(d: Directive): nat {
    match d
    case Constrained(_) => 1
    case ConstrainedInferred => 1
    case OnDelete(_) => 2
    case OnUpdate(_) => 3
    case Nullable => 4
    case Unsigned => 5
    case Default(_) => 6
    case Comment(_) => 7
    case Unique(_) => 8
    case Index(_) => 9
    case Primary(_) => 10
    case _ => 0
  }

  /** Stages strictly increase: every kind of directive occurs at most once, in the fixed order. */
  predicate Increasing(s: seq<Directive>) {
    forall i, j :: 0 <= i < j < |s| ==> Stage(s[i]) < Stage(s[j])
  }

  /** Neighbouring directives have increasing stages (stated from the back, the way the sequence grows). */
  predicate Ascending(s: seq<Directive>)
    decreases |s|
  {
    |s| <= 1 || (Ascending(s[..|s| - 1]) && Stage(s[|s| - 2]) < Stage(s[|s| - 1]))
  }

  /** Increasing neighbours make the whole sequence increasing. */
  lemma {:induction false} AscendingIsIncreasing(s: seq<Directive>)
    requires Ascending(s)
    ensures Increasing(s)
    decreases |s|
  {
    if |s| > 1 {
      var p := s[..|s| - 1];
      AscendingIsIncreasing(p);
      forall i, j | 0 <= i < j < |s| ensures Stage(s[i]) < Stage(s[j]) {
        if j < |s| - 1 {
          assert s[i] == p[i] && s[j] == p[j];
        } else if i < |s| - 2 {
          assert s[i] == p[i] && s[|s| - 2] == p[|s| - 2];
        }
      }
    }
  }

  /**
   * A non-empty ascending sequence whose directives after the first have
   * stages in lo..hi.
   */
  predicate StagedWithin(s: seq<Directive>, lo: nat, hi: nat) {
    Ascending(s) && |s| > 0 && Stage(s[|s| - 1]) <= hi && (|s| >= 2 ==> lo <= Stage(s[1]))
  }

  /** Appending, or not, one directive of a later stage keeps the order and the first directive. */
  lemma StagedStep(s: seq<Directive>, lo: nat, cond: bool, d: Directive)
    requires 0 < Stage(d) && lo <= Stage(d) && StagedWithin(s, lo, Stage(d) - 1)
    ensures var t := if cond then s + [d] else s;
      StagedWithin(t, lo, Stage(d)) && t[0] == s[0]
  {
    if cond {
      assert (s + [d])[..|s|] == s;
    }
  }

  /** A staged sequence is increasing, and everything after its first directive is at stage lo or later. */
  lemma StagedTail(s: seq<Directive>, lo: nat, hi: nat)
    requires StagedWithin(s, lo, hi)
    ensures Increasing(s)
    ensures forall i :: 0 < i < |s| ==> lo <= Stage(s[i])
  {
    AscendingIsIncreasing(s);
    forall i | 1 < i < |s| ensures lo <= Stage(s[i]) {
      assert Stage(s[1]) < Stage(s[i]);
    }
  }

  lemma NullableStep(s: seq<Directive>, m: map<string, PVal>)
    requires StagedWithin(s, 4, 3)
    ensures StagedWithin(WithNullable(s, m), 4, 4) && WithNullable(s, m)[0] == s[0]
  {
    StagedStep(s, 4, !EmptyAt(m, "nullable"), Nullable);
  }

  lemma UnsignedStep(s: seq<Directive>, base: Directive, m: map<string, PVal>, hasUnsigned: Directive -> bool)
    requires StagedWithin(s, 4, 4)
    ensures StagedWithin(WithUnsigned(s, base, m, hasUnsigned), 4, 5) && WithUnsigned(s, base, m, hasUnsigned)[0] == s[0]
  {
    StagedStep(s, 4, !EmptyAt(m, "unsigned") && hasUnsigned(base), Unsigned);
  }

  lemma DefaultStep(s: seq<Directive>, m: map<string, PVal>)
    requires StagedWithin(s, 4, 5)
    ensures StagedWithin(WithDefault(s, m), 4, 6) && WithDefault(s, m)[0] == s[0]
  {
    if "default" in m {
      StagedStep(s, 4, true, Default(m["default"]));
    }
  }

  lemma CommentStep(s: seq<Directive>, m: map<string, PVal>)
    requires StagedWithin(s, 4, 6)
    ensures StagedWithin(WithComment(s, m), 4, 7) && WithComment(s, m)[0] == s[0]
  {
    if !EmptyAt(m, "comment") {
      StagedStep(s, 4, true, Comment(m["comment"]));
    }
  }

  lemma UniqueStep(s: seq<Directive>, name: string, m: map<string, PVal>)
    requires StagedWithin(s, 4, 7)
    ensures StagedWithin(WithUnique(s, name, m), 4, 8) && WithUnique(s, name, m)[0] == s[0]
  {
    StagedStep(s, 4, !EmptyAt(m, "unique"), Unique(name));
  }

  lemma IndexStep(s: seq<Directive>, name: string, m: map<string, PVal>)
    requires StagedWithin(s, 4, 8)
    ensures StagedWithin(WithIndex(s, name, m), 4, 9) && WithIndex(s, name, m)[0] == s[0]
  {
    StagedStep(s, 4, !EmptyAt(m, "index"), Index(name));
  }

  lemma PrimaryStep(s: seq<Directive>, name: string, m: map<string, PVal>)
    requires StagedWithin(s, 4, 9)
    ensures StagedWithin(WithPrimary(s, name, m), 4, 10) && WithPrimary(s, name, m)[0] == s[0]
  {
    StagedStep(s, 4, !EmptyAt(m, "primary"), Primary(name));
  }

  /** The calls on the column object (lines 214-228) follow the column call in order. */
  lemma ModifiersStaged(base: Directive, m: map<string, PVal>, hasUnsigned: Directive -> bool)
    requires IsBase(base)
    ensures var s := WithComment(WithDefault(WithUnsigned(WithNullable([base], m), base, m, hasUnsigned), m), m);
      StagedWithin(s, 4, 7) && s[0] == base
  {
    var s1 := WithNullable([base], m);
    NullableStep([base], m);
    var s2 := WithUnsigned(s1, base, m, hasUnsigned);
    UnsignedStep(s1, base, m, hasUnsigned);
    var s3 := WithDefault(s2, m);
    DefaultStep(s2, m);
    CommentStep(s3, m);
  }

  /** The index commands (lines 231-241) follow in order. */
  lemma IndexesStaged(s: seq<Directive>, name: string, m: map<string, PVal>)
    requires StagedWithin(s, 4, 7)
    ensures var t := WithPrimary(WithIndex(WithUnique(s, name, m), name, m), name, m);
      StagedWithin(t, 4, 10) && t[0] == s[0]
  {
    var s1 := WithUnique(s, name, m);
    UniqueStep(s, name, m);
    var s2 := WithIndex(s1, name, m);
    IndexStep(s1, name, m);
    PrimaryStep(s2, name, m);
  }

  /** The column call, then the modifiers and index commands in order, and nothing else. */
  lemma ColumnPartOrdered(name: string, base: Directive, m: map<string, PVal>, hasUnsigned: Directive -> bool)
    requires IsBase(base)
    ensures var r := ColumnPart(name, base, m, hasUnsigned);
      && r[0] == base && Increasing(r)
      && forall i :: 0 < i < |r| ==> IsColumnModifier(r[i]) || IsIndexCommand(r[i])
  {
    var mods := WithComment(WithDefault(WithUnsigned(WithNullable([base], m), base, m, hasUnsigned), m), m);
    ModifiersStaged(base, m, hasUnsigned);
    IndexesStaged(mods, name, m);
    StagedTail(ColumnPart(name, base, m, hasUnsigned), 4, 10);
  }

  lemma ConstraintStep(s: seq<Directive>, m: map<string, PVal>)
    requires StagedWithin(s, 1, 0)
    ensures StagedWithin(WithConstraint(s, m), 1, 1) && WithConstraint(s, m)[0] == s[0]
  {
    if !EmptyAt(m, "constrained") {
      var clause := if m["constrained"].PStr? then Constrained(m["constrained"].s) else ConstrainedInferred;
      StagedStep(s, 1, true, clause);
    }
  }

  lemma OnDeleteStep(s: seq<Directive>, m: map<string, PVal>)
    requires StagedWithin(s, 1, 1)
    ensures StagedWithin(WithOnDelete(s, m), 1, 2) && WithOnDelete(s, m)[0] == s[0]
  {
    if !EmptyAt(m, "onDelete") {
      StagedStep(s, 1, true, OnDelete(m["onDelete"]));
    }
  }

  lemma OnUpdateStep(s: seq<Directive>, m: map<string, PVal>)
    requires StagedWithin(s, 1, 2)
    ensures StagedWithin(WithOnUpdate(s, m), 1, 3) && WithOnUpdate(s, m)[0] == s[0]
  {
    if !EmptyAt(m, "onUpdate") {
      StagedStep(s, 1, true, OnUpdate(m["onUpdate"]));
    }
  }

  /** The column part starts with the column call. */
  lemma ColumnPartHead(name: string, base: Directive, m: map<string, PVal>, hasUnsigned: Directive -> bool)
    requires IsBase(base)
    ensures var q := ColumnPart(name, base, m, hasUnsigned);
      |q| > 0 && q[0] == base
  {
    ColumnPartOrdered(name, base, m, hasUnsigned);
  }

  /** The foreignId part, when there is one, starts with the foreignId column. */
  lemma PreludeHead(name: string, columnType: string, m: map<string, PVal>)
    ensures var p := ForeignIdPrelude(name, columnType, m);
      (columnType == "foreignId" <==> p != []) && (p != [] ==> p[0] == ForeignId(name))
  {
    if columnType == "foreignId" {
      PreludeOrdered(name, m);
    }
  }

  /** Stages 1 to 3 are the reference clauses. */
  lemma ReferenceStages(d: Directive)
    requires 1 <= Stage(d) <= 3
    ensures IsReferenceClause(d)
  {
  }

  /** The foreignId column call, then its reference clauses in order, and nothing else. */
  lemma PreludeOrdered(name: string, m: map<string, PVal>)
    ensures var p := ForeignIdPrelude(name, "foreignId", m);
      && p[0] == ForeignId(name) && Increasing(p)
      && forall i :: 0 < i < |p| ==> IsReferenceClause(p[i])
  {
    var s0 := [ForeignId(name)];
    var s1 := WithConstraint(s0, m);
    ConstraintStep(s0, m);
    var s2 := WithOnDelete(s1, m);
    OnDeleteStep(s1, m);
    OnUpdateStep(s2, m);
    var p := WithOnUpdate(s2, m);
    assert ForeignIdPrelude(name, "foreignId", m) == p;
    StagedTail(p, 1, 3);
    forall i | 0 < i < |p| ensures IsReferenceClause(p[i]) {
      assert Stage(p[i]) <= Stage(p[|p| - 1]);
      ReferenceStages(p[i]);
    }
  }

  /**
   * For a column that is not a foreignId: one column call first, then at
   * most one each of nullable, unsigned, default, comment, unique, index and
   * primary, in that order. No index command precedes the column call.
   */
  lemma {:induction false} ModifierOrder(c: ColumnSpec, hasUnsigned: Directive -> bool)
    requires c.columnType != "foreignId"
    requires Translate(c, hasUnsigned).Success?
    ensures var r := Translate(c, hasUnsigned).value;
      && IsBase(r[0]) && r[0].column == c.name
      && Increasing(r)
      && forall i :: 0 < i < |r| ==> IsColumnModifier(r[i]) || IsIndexCommand(r[i])
  {
    var m := ModifierMap(c.modifiers).value;
    var base := BaseDirective(c.name, c.columnType, m).value;
    assert Translate(c, hasUnsigned).value == ColumnPart(c.name, base, m, hasUnsigned);
    ColumnPartOrdered(c.name, base, m, hasUnsigned);
  }

  /**
   * For a foreignId column: the column is declared twice. The reference
   * clauses (constrained, onDelete, onUpdate) follow the first declaration
   * and so attach to it; the column modifiers follow the second and attach
   * to it; the index commands come last.
   */
  lemma {:induction false} ForeignIdLayout(c: ColumnSpec, hasUnsigned: Directive -> bool)
    requires c.columnType == "foreignId"
    requires Translate(c, hasUnsigned).Success?
    ensures var r := Translate(c, hasUnsigned).value;
      exists k :: 0 < k < |r|
        && r[0] == ForeignId(c.name) && r[k] == ForeignId(c.name)
        && Increasing(r[..k]) && Increasing(r[k..])
        && (forall i :: 0 < i < k ==> IsReferenceClause(r[i]))
        && (forall i :: k < i < |r| ==> IsColumnModifier(r[i]) || IsIndexCommand(r[i]))
  {
    var m := ModifierMap(c.modifiers).value;
    TranslateSplit(c, hasUnsigned);
    assert BaseDirective(c.name, c.columnType, m).value == ForeignId(c.name);
    var p := ForeignIdPrelude(c.name, c.columnType, m);
    var q := ColumnPart(c.name, ForeignId(c.name), m, hasUnsigned);
    PreludeOrdered(c.name, m);
    ColumnPartOrdered(c.name, ForeignId(c.name), m, hasUnsigned);
    TwoPartLayout(p, q, ForeignId(c.name));
  }

  /** Gluing the reference part and the column part together keeps both layouts, split at the second declaration. */
  lemma TwoPartLayout(p: seq<Directive>, q: seq<Directive>, d: Directive)
    requires |p| > 0 && p[0] == d && Increasing(p) && forall i :: 0 < i < |p| ==> IsReferenceClause(p[i])
    requires |q| > 0 && q[0] == d && Increasing(q) && forall i :: 0 < i < |q| ==> IsColumnModifier(q[i]) || IsIndexCommand(q[i])
    ensures var r := p + q;
      exists k :: 0 < k < |r|
        && r[0] == d && r[k] == d
        && Increasing(r[..k]) && Increasing(r[k..])
        && (forall i :: 0 < i < k ==> IsReferenceClause(r[i]))
        && (forall i :: k < i < |r| ==> IsColumnModifier(r[i]) || IsIndexCommand(r[i]))
  {
    var r := p + q;
    var k := |p|;
    assert r[..k] == p && r[k..] == q;
    assert r[k] == q[0];
    forall i | k < i < |r| ensures IsColumnModifier(r[i]) || IsIndexCommand(r[i]) {
      assert r[i] == q[i - k];
    }
  }

  // ---------------------------------------------------------------------
  // Which modifiers fire
  // ---------------------------------------------------------------------

  /** Appending, or not, one directive adds exactly that directive. */
  lemma MemberStep(s: seq<Directive>, t: seq<Directive>, cond: bool, d: Directive, x: Directive)
    requires t == if cond then s + [d] else s
    ensures x in t <==> x in s || (cond && x == d)
  {
  }

  /** Exactly which directives the column part holds. */
  lemma ColumnPartMembers(name: string, base: Directive, m: map<string, PVal>, hasUnsigned: Directive -> bool, x: Directive)
    ensures x in ColumnPart(name, base, m, hasUnsigned) <==>
      || x == base
      || (x == Nullable && !EmptyAt(m, "nullable"))
      || (x == Unsigned && !EmptyAt(m, "unsigned") && hasUnsigned(base))
      || ("default" in m && x == Default(m["default"]))
      || (!EmptyAt(m, "comment") && x == Comment(m["comment"]))
      || (x == Unique(name) && !EmptyAt(m, "unique"))
      || (x == Index(name) && !EmptyAt(m, "index"))
      || (x == Primary(name) && !EmptyAt(m, "primary"))
  {
    var s1 := WithNullable([base], m);
    MemberStep([base], s1, !EmptyAt(m, "nullable"), Nullable, x);
    var s2 := WithUnsigned(s1, base, m, hasUnsigned);
    MemberStep(s1, s2, !EmptyAt(m, "unsigned") && hasUnsigned(base), Unsigned, x);
    var s3 := WithDefault(s2, m);
    MemberStep(s2, s3, "default" in m, Default(if "default" in m then m["default"] else PNull), x);
    var s4 := WithComment(s3, m);
    MemberStep(s3, s4, !EmptyAt(m, "comment"), Comment(if "comment" in m then m["comment"] else PNull), x);
    var s5 := WithUnique(s4, name, m);
    MemberStep(s4, s5, !EmptyAt(m, "unique"), Unique(name), x);
    var s6 := WithIndex(s5, name, m);
    MemberStep(s5, s6, !EmptyAt(m, "index"), Index(name), x);
    var s7 := WithPrimary(s6, name, m);
    MemberStep(s6, s7, !EmptyAt(m, "primary"), Primary(name), x);
  }

  /** Exactly which directives the foreignId part holds. */
  lemma PreludeMembers(name: string, columnType: string, m: map<string, PVal>, x: Directive)
    ensures x in ForeignIdPrelude(name, columnType, m) <==>
      && columnType == "foreignId"
      && (|| x == ForeignId(name)
          || (!EmptyAt(m, "constrained") && m["constrained"].PStr? && x == Constrained(m["constrained"].s))
          || (!EmptyAt(m, "constrained") && !m["constrained"].PStr? && x == ConstrainedInferred)
          || (!EmptyAt(m, "onDelete") && x == OnDelete(m["onDelete"]))
          || (!EmptyAt(m, "onUpdate") && x == OnUpdate(m["onUpdate"])))
  {
    if columnType == "foreignId" {
      var s0 := [ForeignId(name)];
      var s1 := WithConstraint(s0, m);
      var constrained := !EmptyAt(m, "constrained");
      var clause := if constrained && m["constrained"].PStr? then Constrained(m["constrained"].s) else ConstrainedInferred;
      MemberStep(s0, s1, constrained, clause, x);
      var s2 := WithOnDelete(s1, m);
      MemberStep(s1, s2, !EmptyAt(m, "onDelete"), OnDelete(if "onDelete" in m then m["onDelete"] else PNull), x);
      var s3 := WithOnUpdate(s2, m);
      MemberStep(s2, s3, !EmptyAt(m, "onUpdate"), OnUpdate(if "onUpdate" in m then m["onUpdate"] else PNull), x);
    }
  }

  /** Exactly which directives a successful translation holds. */
  lemma TranslateMembers(c: ColumnSpec, hasUnsigned: Directive -> bool, x: Directive)
    requires Translate(c, hasUnsigned).Success?
    ensures var m := ModifierMap(c.modifiers).value;
      var base := BaseDirective(c.name, c.columnType, m).value;
      var fk := c.columnType == "foreignId";
      x in Translate(c, hasUnsigned).value <==>
      || x == base
      || (fk && x == ForeignId(c.name))
      || (fk && !EmptyAt(m, "constrained") && m["constrained"].PStr? && x == Constrained(m["constrained"].s))
      || (fk && !EmptyAt(m, "constrained") && !m["constrained"].PStr? && x == ConstrainedInferred)
      || (fk && !EmptyAt(m, "onDelete") && x == OnDelete(m["onDelete"]))
      || (fk && !EmptyAt(m, "onUpdate") && x == OnUpdate(m["onUpdate"]))
      || (x == Nullable && !EmptyAt(m, "nullable"))
      || (x == Unsigned && !EmptyAt(m, "unsigned") && hasUnsigned(base))
      || ("default" in m && x == Default(m["default"]))
      || (!EmptyAt(m, "comment") && x == Comment(m["comment"]))
      || (x == Unique(c.name) && !EmptyAt(m, "unique"))
      || (x == Index(c.name) && !EmptyAt(m, "index"))
      || (x == Primary(c.name) && !EmptyAt(m, "primary"))
  {
    var m := ModifierMap(c.modifiers).value;
    var base := BaseDirective(c.name, c.columnType, m).value;
    PreludeMembers(c.name, c.columnType, m, x);
    ColumnPartMembers(c.name, base, m, hasUnsigned, x);
  }

  /**
   * nullable, unsigned and comment give a directive only when their value
   * is not PHP-empty (false, 0, "0", "", null and [] give nothing);
   * unsigned also needs the column object to have an `unsigned` method;
   * default gives one whenever the key exists, with a null value too.
   */
  lemma {:induction false} ModifierTriggers(c: ColumnSpec, hasUnsigned: Directive -> bool)
    requires Translate(c, hasUnsigned).Success?
    ensures var r := Translate(c, hasUnsigned).value;
      var m := ModifierMap(c.modifiers).value;
      var base := BaseDirective(c.name, c.columnType, m).value;
      && (Nullable in r <==> !EmptyAt(m, "nullable"))
      && (Unsigned in r <==> !EmptyAt(m, "unsigned") && hasUnsigned(base))
      && (forall v :: Default(v) in r <==> KeyExists(m, "default") && v == m["default"])
      && (forall v :: Comment(v) in r <==> !EmptyAt(m, "comment") && v == m["comment"])
  {
    var r := Translate(c, hasUnsigned).value;
    var m := ModifierMap(c.modifiers).value;
    TranslateMembers(c, hasUnsigned, Nullable);
    TranslateMembers(c, hasUnsigned, Unsigned);
    forall v ensures Default(v) in r <==> KeyExists(m, "default") && v == m["default"] {
      TranslateMembers(c, hasUnsigned, Default(v));
    }
    forall v ensures Comment(v) in r <==> !EmptyAt(m, "comment") && v == m["comment"] {
      TranslateMembers(c, hasUnsigned, Comment(v));
    }
  }

  /**
   * unique, index and primary each give one index command on the column's
   * own name, and only when their value is not PHP-empty.
   */
  lemma {:induction false} IndexTriggers(c: ColumnSpec, hasUnsigned: Directive -> bool)
    requires Translate(c, hasUnsigned).Success?
    ensures var r := Translate(c, hasUnsigned).value;
      var m := ModifierMap(c.modifiers).value;
      && (forall x :: Unique(x) in r <==> !EmptyAt(m, "unique") && x == c.name)
      && (forall x :: Index(x) in r <==> !EmptyAt(m, "index") && x == c.name)
      && (forall x :: Primary(x) in r <==> !EmptyAt(m, "primary") && x == c.name)
  {
    var r := Translate(c, hasUnsigned).value;
    var m := ModifierMap(c.modifiers).value;
    forall x ensures Unique(x) in r <==> !EmptyAt(m, "unique") && x == c.name {
      TranslateMembers(c, hasUnsigned, Unique(x));
    }
    forall x ensures Index(x) in r <==> !EmptyAt(m, "index") && x == c.name {
      TranslateMembers(c, hasUnsigned, Index(x));
    }
    forall x ensures Primary(x) in r <==> !EmptyAt(m, "primary") && x == c.name {
      TranslateMembers(c, hasUnsigned, Primary(x));
    }
  }

  /**
   * Reference clauses exist only for foreignId: constrained with a string
   * names the target table, any other non-empty value leaves it to be
   * inferred; onDelete and onUpdate are passed on when non-empty.
   */
  lemma {:induction false} ReferenceTriggers(c: ColumnSpec, hasUnsigned: Directive -> bool)
    requires Translate(c, hasUnsigned).Success?
    ensures var r := Translate(c, hasUnsigned).value;
      var m := ModifierMap(c.modifiers).value;
      var fk := c.columnType == "foreignId";
      && (forall t :: Constrained(t) in r <==> fk && !EmptyAt(m, "constrained") && m["constrained"] == PStr(t))
      && (ConstrainedInferred in r <==> fk && !EmptyAt(m, "constrained") && !m["constrained"].PStr?)
      && (forall a :: OnDelete(a) in r <==> fk && !EmptyAt(m, "onDelete") && a == m["onDelete"])
      && (forall a :: OnUpdate(a) in r <==> fk && !EmptyAt(m, "onUpdate") && a == m["onUpdate"])
  {
    var r := Translate(c, hasUnsigned).value;
    var m := ModifierMap(c.modifiers).value;
    var fk := c.columnType == "foreignId";
    forall x ensures Constrained(x) in r <==> fk && !EmptyAt(m, "constrained") && m["constrained"] == PStr(x) {
      TranslateMembers(c, hasUnsigned, Constrained(x));
    }
    TranslateMembers(c, hasUnsigned, ConstrainedInferred);
    forall a ensures OnDelete(a) in r <==> fk && !EmptyAt(m, "onDelete") && a == m["onDelete"] {
      TranslateMembers(c, hasUnsigned, OnDelete(a));
    }
    forall a ensures OnUpdate(a) in r <==> fk && !EmptyAt(m, "onUpdate") && a == m["onUpdate"] {
      TranslateMembers(c, hasUnsigned, OnUpdate(a));
    }
  }

  // ---------------------------------------------------------------------
  // The column call chosen, and keys that are ignored
  // ---------------------------------------------------------------------

  /**
   * The column call (lines 203-211): enum with `values` set to an array gives
   * enum($name, $values), and an enum without one raises; string with
   * `length` set gives string($name, $length); foreignId gives a foreignId
   * column; the other accepted types give $type($name); a type with no
   * Blueprint method raises. Scalar modifiers always raise.
   */
  lemma {:induction false} BaseChoice(c: ColumnSpec, hasUnsigned: Directive -> bool)
    ensures var r := Translate(c, hasUnsigned);
      ModifierMap(c.modifiers).None? ==> r == Failure(ModifiersNotArray)
    ensures ModifierMap(c.modifiers).Some? ==>
      var r := Translate(c, hasUnsigned);
      var m := ModifierMap(c.modifiers).value;
        && (c.columnType == "enum" ==>
              && (r.Success? <==> IssetAt(m, "values") && IsArray(m["values"]))
              && (r.Success? ==> r.value[0] == Enum(c.name, m["values"]))
              && (r.Failure? ==> r.error == EnumWithoutValues))
        && (c.columnType == "string" ==>
              r.Success? && r.value[0] == if IssetAt(m, "length") then StringLen(c.name, m["length"]) else Base("string", c.name))
        && (c.columnType == "foreignId" ==> r.Success? && r.value[0] == ForeignId(c.name))
        && (c.columnType in ColumnMethods - {"string"} ==> r.Success? && r.value[0] == Base(c.columnType, c.name))
        && (c.columnType !in ColumnMethods + {"foreignId", "enum"} ==> r == Failure(UnknownColumnType(c.columnType)))
  {
    if ModifierMap(c.modifiers).Some? {
      var m := ModifierMap(c.modifiers).value;
      var b := BaseDirective(c.name, c.columnType, m);
      if b.Success? {
        ColumnPartOrdered(c.name, b.value, m, hasUnsigned);
        if c.columnType == "foreignId" {
          PreludeOrdered(c.name, m);
        }
      }
    }
  }

  /** Two modifier maps that agree on every key the translator reads. */
  predicate AgreeOnRecognised(m: map<string, PVal>, m': map<string, PVal>) {
    forall k :: k in RecognisedKeys ==> (k in m <==> k in m') && (k in m ==> m[k] == m'[k])
  }

  /** Keys the translator does not read produce no directive and change nothing. */
  lemma {:induction false} UnknownModifierIgnored(c: ColumnSpec, hasUnsigned: Directive -> bool, k: string, v: PVal)
    requires c.modifiers.Some? && c.modifiers.value.PDict?
    requires k !in RecognisedKeys
    ensures Translate(c.(modifiers := Some(PDict(c.modifiers.value.entries[k := v]))), hasUnsigned) == Translate(c, hasUnsigned)
  {
    var m := c.modifiers.value.entries;
    var m' := m[k := v];
    assert AgreeOnRecognised(m, m');
    assert forall key :: key in RecognisedKeys ==> (EmptyAt(m, key) <==> EmptyAt(m', key)) && (IssetAt(m, key) <==> IssetAt(m', key));
    assert BaseDirective(c.name, c.columnType, m') == BaseDirective(c.name, c.columnType, m);
    assert ForeignIdPrelude(c.name, c.columnType, m') == ForeignIdPrelude(c.name, c.columnType, m);
    var b := BaseDirective(c.name, c.columnType, m);
    if b.Success? {
      ColumnPartAgrees(c.name, b.value, m, m', hasUnsigned);
    }
  }

  /** The column part reads only recognised keys. */
  lemma ColumnPartAgrees(name: string, base: Directive, m: map<string, PVal>, m': map<string, PVal>, hasUnsigned: Directive -> bool)
    requires AgreeOnRecognised(m, m')
    ensures ColumnPart(name, base, m, hasUnsigned) == ColumnPart(name, base, m', hasUnsigned)
  {
    assert "nullable" in RecognisedKeys && "unsigned" in RecognisedKeys && "default" in RecognisedKeys;
    assert "comment" in RecognisedKeys && "unique" in RecognisedKeys && "index" in RecognisedKeys && "primary" in RecognisedKeys;
    var s1 := WithNullable([base], m);
    assert s1 == WithNullable([base], m');
    var s2 := WithUnsigned(s1, base, m, hasUnsigned);
    assert s2 == WithUnsigned(s1, base, m', hasUnsigned);
    var s3 := WithDefault(s2, m);
    assert s3 == WithDefault(s2, m');
    var s4 := WithComment(s3, m);
    assert s4 == WithComment(s3, m');
    var s5 := WithUnique(s4, name, m);
    assert s5 == WithUnique(s4, name, m');
    var s6 := WithIndex(s5, name, m);
    assert s6 == WithIndex(s5, name, m');
  }

  // ---------------------------------------------------------------------
  // The columns a Blueprint creates
  // ---------------------------------------------------------------------

  /** The columns one call creates. */
  function NamesOf(d: Directive): seq<string> {
    match d
    case Id => ["id"]
    case Timestamps => ["created_at", "updated_at"]
    case ForeignId(n) => [n]
    case Enum(n, _) => [n]
    case StringLen(n, _) => [n]
    case Base(_, n) => [n]
    case _ => []
  }

  /** The columns a sequence of calls creates, in order. */
  function ColumnNames(ds: seq<Directive>): seq<string>
    decreases |ds|
  {
    if ds == [] then [] else ColumnNames(ds[..|ds| - 1]) + NamesOf(ds[|ds| - 1])
  }

  lemma {:induction false} ColumnNamesAppend(a: seq<Directive>, b: seq<Directive>)
    ensures ColumnNames(a + b) == ColumnNames(a) + ColumnNames(b)
    decreases |b|
  {
    if b != [] {
      var b' := b[..|b| - 1];
      assert (a + b)[..|a + b| - 1] == a + b';
      ColumnNamesAppend(a, b');
    } else {
      assert a + b == a;
    }
  }

  /** When only the first call creates a column, that is the only column. */
  lemma {:induction false} ColumnNamesHeadOnly(s: seq<Directive>)
    requires |s| > 0
    requires forall i :: 0 < i < |s| ==> NamesOf(s[i]) == []
    ensures ColumnNames(s) == NamesOf(s[0])
    decreases |s|
  {
    if |s| > 1 {
      var p := s[..|s| - 1];
      ColumnNamesHeadOnly(p);
    } else {
      assert s[..0] == [];
    }
  }

  /** The columns a column description declares: a foreignId column is declared twice. */
  function DeclaredColumns(c: ColumnSpec): seq<string> {
    if c.columnType == "foreignId" then [c.name, c.name] else [c.name]
  }

  /** Modifiers and index commands declare no column. */
  lemma NoNamesAfterColumn(d: Directive)
    requires IsColumnModifier(d) || IsIndexCommand(d)
    ensures NamesOf(d) == []
  {
  }

  lemma ColumnPartNames(name: string, base: Directive, m: map<string, PVal>, hasUnsigned: Directive -> bool)
    requires IsBase(base)
    ensures ColumnNames(ColumnPart(name, base, m, hasUnsigned)) == [base.column]
  {
    var q := ColumnPart(name, base, m, hasUnsigned);
    ColumnPartOrdered(name, base, m, hasUnsigned);
    forall i | 0 < i < |q| ensures NamesOf(q[i]) == [] {
      NoNamesAfterColumn(q[i]);
    }
    ColumnNamesHeadOnly(q);
    assert NamesOf(base) == [base.column];
  }

  lemma PreludeNames(name: string, columnType: string, m: map<string, PVal>)
    ensures ColumnNames(ForeignIdPrelude(name, columnType, m)) == if columnType == "foreignId" then [name] else []
  {
    if columnType == "foreignId" {
      PreludeOrdered(name, m);
      ColumnNamesHeadOnly(ForeignIdPrelude(name, columnType, m));
    }
  }

  /** A successful translation is the foreignId part followed by the column part. */
  lemma TranslateSplit(c: ColumnSpec, hasUnsigned: Directive -> bool)
    requires Translate(c, hasUnsigned).Success?
    ensures var m := ModifierMap(c.modifiers).value;
      BaseDirective(c.name, c.columnType, m).Success? &&
      Translate(c, hasUnsigned).value ==
        ForeignIdPrelude(c.name, c.columnType, m) + ColumnPart(c.name, BaseDirective(c.name, c.columnType, m).value, m, hasUnsigned)
  {
  }

  /** A successful translation starts with a column call on the column's own name. */
  lemma TranslateHead(c: ColumnSpec, hasUnsigned: Directive -> bool)
    requires Translate(c, hasUnsigned).Success?
    ensures var r := Translate(c, hasUnsigned).value;
      |r| > 0 && IsBase(r[0]) && r[0].column == c.name
  {
    var m := ModifierMap(c.modifiers).value;
    TranslateSplit(c, hasUnsigned);
    var base := BaseDirective(c.name, c.columnType, m).value;
    PreludeHead(c.name, c.columnType, m);
    ColumnPartHead(c.name, base, m, hasUnsigned);
  }

  /** A translated column creates exactly its declared columns; modifiers and index commands create none. */
  lemma {:induction false} TranslateColumnNames(c: ColumnSpec, hasUnsigned: Directive -> bool)
    requires Translate(c, hasUnsigned).Success?
    ensures ColumnNames(Translate(c, hasUnsigned).value) == DeclaredColumns(c)
  {
    var m := ModifierMap(c.modifiers).value;
    TranslateSplit(c, hasUnsigned);
    var base := BaseDirective(c.name, c.columnType, m).value;
    var p := ForeignIdPrelude(c.name, c.columnType, m);
    var q := ColumnPart(c.name, base, m, hasUnsigned);
    ColumnPartNames(c.name, base, m, hasUnsigned);
    PreludeNames(c.name, c.columnType, m);
    ColumnNamesAppend(p, q);
    assert base.column == c.name;
  }

  /**
   * A foreignId column is declared twice under the same name, since after
   * the foreignId branch the type also falls into `$table->$type($name)`.
   */
  lemma ForeignIdDeclaredTwice(c: ColumnSpec, hasUnsigned: Directive -> bool)
    requires c.columnType == "foreignId" && ModifierMap(c.modifiers).Some?
    ensures Translate(c, hasUnsigned).Success?
    ensures ColumnNames(Translate(c, hasUnsigned).value) == [c.name, c.name]
  {
    TranslateColumnNames(c, hasUnsigned);
  }
}
