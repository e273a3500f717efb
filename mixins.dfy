/**
 * pgcrypto/mixins.py: the per-row key lifecycle and the SQL fragments of an
 * encrypted field.
 *
 * A field object is shared by every row of its model. Before a row is saved,
 * pre_save looks the row's primary key up in the key store (a Redis database
 * that Postgres also sees as the foreign table key_store), mints and stores a
 * base 64 key when there is none, and leaves the chosen key in the field's
 * key slot; get_placeholder then puts that key into the encrypt template.
 * Reading goes through DecryptedCol, which wraps the column reference in the
 * decrypt template together with the field's cast.
 */
module Mixins {
  import opened Wrappers
  import opened Py
  import opened Templates
  import Base64

  /**
   * get_setting(connection, key): the connection's settings_dict entry when
   * present, else the attribute of Django's settings (AttributeError if absent).
   */
  function GetSetting<V>(connectionSettings: map<string, V>, settings: map<string, V>, key: string): (r: Result<V, PyError>)
    ensures key in connectionSettings ==> r == Success(connectionSettings[key])
    ensures key !in connectionSettings && key in settings ==> r == Success(settings[key])
    ensures key !in connectionSettings && key !in settings ==> r == Failure(AttributeError)
  {
    if key in connectionSettings then Success(connectionSettings[key])
    else if key in settings then Success(settings[key])
    else Failure(AttributeError)
  }

  /** A connection-level value shadows the global setting, whatever the global one is. */
  lemma ConnectionSettingWins<V>(connectionSettings: map<string, V>, s1: map<string, V>, s2: map<string, V>, key: string)
    requires key in connectionSettings
    ensures GetSetting(connectionSettings, s1, key) == GetSetting(connectionSettings, s2, key)
  {
  }

  // ---------------------------------------------------------------- keys

  /** The output of urandom(32). */
  type Entropy = s: seq<byte> | |s| == 32 witness seq(32, i => 0)

  /**
   * generate_key(): b64encode(urandom(32)).decode('utf-8'). The random bytes
   * are a parameter; 32 bytes encode to 44 characters, the last being "=".
   */
  function GenerateKey(entropy: Entropy): (k: string)
    ensures |k| == 44 && k[43] == '='
    ensures forall i :: 0 <= i < 43 ==> Base64.IsAlphabetChar(k[i])
    ensures Base64.Decode(k) == Some(entropy)
  {
    KeyShape(entropy);
    Base64.Encode(entropy)
  }

  lemma KeyShape(entropy: Entropy)
    ensures var k := Base64.Encode(entropy);
      && |k| == 44 && k[43] == '='
      && (forall i :: 0 <= i < 43 ==> Base64.IsAlphabetChar(k[i]))
      && Base64.Decode(k) == Some(entropy)
  {
    var k := Base64.Encode(entropy);
    assert |k| == 4 * ((32 + 2) / 3) == 44;
    Base64.EncodeShapeTwoLeft(entropy);
    Base64.DecodeEncode(entropy);
  }

  /** Distinct random inputs give distinct keys. */
  lemma GenerateKeyInjective(e1: Entropy, e2: Entropy)
    requires e1 != e2
    ensures GenerateKey(e1) != GenerateKey(e2)
  {
    if GenerateKey(e1) == GenerateKey(e2) {
      Base64.EncodeInjective(e1, e2);
    }
  }

  /** The key under which Redis stores a row's key: str(pk), which is "None" for a missing pk. */
  function StoreId(pk: Option<string>): (id: string)
    ensures pk.Some? ==> id == pk.value
    ensures pk.None? ==> id == "None"
  {
    StrOfOptionalText(pk)
  }

  /**
   * "select key from key_store where id = %s::text" with the pk as parameter,
   * then fetchone(). A missing pk is SQL NULL, and "id = NULL" matches no row.
   */
  function SelectKey(entries: map<string, string>, pk: Option<string>): (row: Option<string>)
    ensures row.Some? <==> pk.Some? && pk.value in entries
    ensures row.Some? ==> row.value == entries[StoreId(pk)]
  {
    if pk.Some? && pk.value in entries then Some(entries[pk.value]) else None
  }

  /** The key pre_save settles on and the key store it leaves behind. */
  datatype Resolution = Resolution(key: string, store: map<string, string>)

  /**
   * What pre_save does to the key store: reuse the stored key, or mint one
   * and store it under str(pk).
   */
  function ResolveKey(entries: map<string, string>, pk: Option<string>, entropy: Entropy): (r: Resolution)
    ensures r.store == entries[StoreId(pk) := r.key]
    ensures SelectKey(entries, pk).Some? ==> r.key == SelectKey(entries, pk).value && r.store == entries
    ensures SelectKey(entries, pk).None? ==> r.key == GenerateKey(entropy)
  {
    match SelectKey(entries, pk)
    case Some(k) =>
      assert entries[StoreId(pk) := k] == entries;
      Resolution(k, entries)
    case None =>
      var k := GenerateKey(entropy);
      Resolution(k, entries[StoreId(pk) := k])
  }

  /** Afterwards the store maps str(pk) to the chosen key, and no entry is dropped. */
  lemma ResolvedKeyIsStored(entries: map<string, string>, pk: Option<string>, entropy: Entropy)
    ensures var r := ResolveKey(entries, pk, entropy);
      && StoreId(pk) in r.store && r.store[StoreId(pk)] == r.key
      && entries.Keys <= r.store.Keys
      && forall id :: id in entries && id != StoreId(pk) ==> r.store[id] == entries[id]
  {
  }

  /**
   * For a row with a pk, resolving again (with any random input) changes
   * nothing and yields the same key: the row keeps one key.
   */
  lemma {:induction false} ResolveAgainIsNoOp(entries: map<string, string>, pk: Option<string>, e1: Entropy, e2: Entropy)
    requires pk.Some?
    ensures var r := ResolveKey(entries, pk, e1);
      ResolveKey(r.store, pk, e2) == r
  {
    var r := ResolveKey(entries, pk, e1);
    assert SelectKey(r.store, pk) == Some(r.key);
  }

  /**
   * For a row whose pk is still None, the lookup never matches, so every
   * resolution mints a fresh key and overwrites the store's "None" entry.
   */
  lemma {:induction false} ResolveWithoutPkMintsAgain(entries: map<string, string>, e1: Entropy, e2: Entropy)
    requires e1 != e2
    ensures var r1 := ResolveKey(entries, None, e1);
      var r2 := ResolveKey(r1.store, None, e2);
      && r2.key != r1.key
      && r2.store == entries["None" := r2.key]
  {
    GenerateKeyInjective(e1, e2);
    var id := StoreId(None);
    var r1 := ResolveKey(entries, None, e1);
    var r2 := ResolveKey(r1.store, None, e2);
    OverwriteTwice(entries, id, r1.key, r2.key);
  }

  lemma OverwriteTwice(m: map<string, string>, id: string, a: string, b: string)
    ensures m[id := a][id := b] == m[id := b]
  {
  }

  /** The external key store; the SQL table key_store and the Redis database are one store. */
  class KeyStore {
    var entries: map<string, string>

    constructor (initial: map<string, string>)
      ensures entries == initial
    {
      entries := initial;
    }

    /** cursor.execute("select key from key_store where id = %s::text", (pk,)); cursor.fetchone() */
    method Select(pk: Option<string>) returns (row: Option<string>)
      ensures row == SelectKey(entries, pk)
    {
      row := SelectKey(entries, pk);
    }

    /** redis.Redis(...).set(id, key) */
    method Set(id: string, key: string)
      modifies this
      ensures entries == old(entries)[id := key]
    {
      entries := entries[id := key];
    }
  }

  // ---------------------------------------------------------------- field descriptors

  /** Which encrypt template a field class carries in encrypt_sql. */
  datatype EncryptSql = PgpSymEncryptSql | PgpSymEncryptSqlWithNullif

  /** A cast_type class attribute: a plain SQL type, or the NUMERIC pattern of DecimalPGPFieldMixin. */
  datatype CastType = CastLiteral(sql: string) | NumericCastPattern

  /** Which get_cast_sql a field class runs: PGPMixin's or DecimalPGPFieldMixin's. */
  datatype CastImpl = ReturnCastType | FormatCastType

  /** The class attributes a field object sees through its class. */
  datatype FieldAttrs = FieldAttrs(encryptSql: EncryptSql, castType: CastType, getCastSql: CastImpl)

  /**
   * PGP_SYM_ENCRYPT_SQL, PGP_SYM_ENCRYPT_SQL_WITH_NULLIF (one key slot each)
   * and PGP_SYM_DECRYPT_SQL (slots for column, alias and cast).
   */
  datatype SqlTemplates = SqlTemplates(encrypt: OneSlotTemplate, encryptWithNullif: OneSlotTemplate, decrypt: ThreeSlotTemplate)

  /** 'NUMERIC(%(max_digits)s, %(decimal_places)s)', as literal text around its two slots. */
  const NumericCastTemplate: Template := ["NUMERIC(", ", ", ")"]

  /** The text of the NUMERIC pattern itself, as PGPMixin.get_cast_sql would return it. */
  const NumericCastPatternText: string := "NUMERIC(%(max_digits)s, %(decimal_places)s)"

  /**
   * get_cast_sql(). PGPMixin's returns cast_type as it is; DecimalPGPFieldMixin's
   * formats it with max_digits and decimal_places (a plain type name, which
   * has no % directive, comes out of that formatting unchanged).
   */
  function CastSql(castType: CastType, impl: CastImpl, maxDigits: Option<nat>, decimalPlaces: Option<nat>): (r: string)
    ensures castType.CastLiteral? ==> r == castType.sql
    ensures impl == ReturnCastType && castType.NumericCastPattern? ==> r == NumericCastPatternText
    ensures impl == FormatCastType && castType.NumericCastPattern? ==>
      |r| > |"NUMERIC(, )"| && r[..8] == "NUMERIC(" && r[|r| - 1] == ')'
    ensures impl == FormatCastType && castType.NumericCastPattern? ==>
      r == "NUMERIC(" + StrOfOptionalNat(maxDigits) + ", " + StrOfOptionalNat(decimalPlaces) + ")"
  {
    match (impl, castType)
    case (_, CastLiteral(sql)) => sql
    case (ReturnCastType, NumericCastPattern) => NumericCastPatternText
    case (FormatCastType, NumericCastPattern) =>
      NumericCastText(StrOfOptionalNat(maxDigits), StrOfOptionalNat(decimalPlaces));
      Render(NumericCastTemplate, [StrOfOptionalNat(maxDigits), StrOfOptionalNat(decimalPlaces)])
  }

  /** Position of the first comma in s, or |s| when there is none. */
  function IndexOfComma(s: string): (i: nat)
    ensures i <= |s| && (i < |s| ==> s[i] == ',')
    ensures forall j :: 0 <= j < i ==> s[j] != ','
    decreases |s|
  {
    if s == [] || s[0] == ',' then 0 else 1 + IndexOfComma(s[1..])
  }

  /** Reads "NUMERIC(p, s)" back into its precision and scale (each a number or None). */
  function ParseNumericCast(s: string): Option<(Option<nat>, Option<nat>)>
  {
    if |s| < 9 || s[..8] != "NUMERIC(" || s[|s| - 1] != ')' then None
    else
      var inner := s[8..|s| - 1];
      var i := IndexOfComma(inner);
      if i + 2 > |inner| || inner[i..i + 2] != ", " then None
      else
        match (ParseOptionalNat(inner[..i]), ParseOptionalNat(inner[i + 2..]))
        case (Some(p), Some(d)) => Some((p, d))
        case _ => None
  }

  lemma NoCommaInNumber(o: Option<nat>)
    ensures forall j :: 0 <= j < |StrOfOptionalNat(o)| ==> StrOfOptionalNat(o)[j] != ','
  {
  }

  /** The formatted cast is the two numbers between "NUMERIC(", ", " and ")". */
  lemma NumericCastText(p: string, d: string)
    ensures Render(NumericCastTemplate, [p, d]) == "NUMERIC(" + p + ", " + d + ")"
  {
    assert Render(NumericCastTemplate[2..], []) == ")";
    assert Render(NumericCastTemplate[1..], [d]) == ", " + d + ")";
  }

  /** The text between the parentheses splits at the first comma, which follows p. */
  lemma SplitNumericText(p: string, d: string)
    requires forall j :: 0 <= j < |p| ==> p[j] != ','
    ensures var s := "NUMERIC(" + p + ", " + d + ")";
      && |s| >= 9 && s[..8] == "NUMERIC(" && s[|s| - 1] == ')'
      && s[8..|s| - 1] == p + ", " + d
  {
    var s := "NUMERIC(" + p + ", " + d + ")";
    assert s == "NUMERIC(" + (p + ", " + d) + ")";
  }

  lemma CommaAfterNumber(p: string, d: string)
    requires forall j :: 0 <= j < |p| ==> p[j] != ','
    ensures var inner := p + ", " + d;
      var i := IndexOfComma(inner);
      i == |p| && inner[..i] == p && inner[i..i + 2] == ", " && inner[i + 2..] == d
  {
    var inner := p + ", " + d;
    assert inner[|p|] == ',';
  }

  /**
   * The decimal cast carries max_digits and decimal_places unchanged: they can
   * be read back from it.
   */
  lemma NumericCastRoundTrip(maxDigits: Option<nat>, decimalPlaces: Option<nat>)
    ensures ParseNumericCast(CastSql(NumericCastPattern, FormatCastType, maxDigits, decimalPlaces))
         == Some((maxDigits, decimalPlaces))
  {
    var p, d := StrOfOptionalNat(maxDigits), StrOfOptionalNat(decimalPlaces);
    NumericCastText(p, d);
    NoCommaInNumber(maxDigits);
    SplitNumericText(p, d);
    CommaAfterNumber(p, d);
    ParseStrOfOptionalNat(maxDigits);
    ParseStrOfOptionalNat(decimalPlaces);
  }

  /** The cast of the test model's decimal field, max_digits=8 and decimal_places=2. */
  lemma DecimalCastExample()
    ensures CastSql(NumericCastPattern, FormatCastType, Some(8), Some(2)) == "NUMERIC(8, 2)"
  {
    assert StrOfOptionalNat(Some(8)) == "8";
    assert StrOfOptionalNat(Some(2)) == "2";
  }

  // ---------------------------------------------------------------- the field

  /**
   * A field object of one of the PGPSymmetricKey field classes: the class
   * attributes its class resolves to, the model's table, the decimal
   * parameters (None for other fields), the mutable key slot set by
   * pre_save, and the slot of the cached_col cached_property.
   */
  class PGPSymmetricKeyField {
    const attrs: FieldAttrs
    const templates: SqlTemplates
    const dbTable: string
    const maxDigits: Option<nat>
    const decimalPlaces: Option<nat>
    var key: Option<string>
    var cachedCol: DecryptedCol?

    /** Once computed, cached_col is the same-table column of this field. */
    ghost predicate Valid()
      reads this
    {
      cachedCol != null ==> cachedCol.alias == dbTable && cachedCol.target == this && cachedCol.outputField == this
    }

    /** __init__: the key slot starts as None and nothing is cached. */
    constructor (attrs: FieldAttrs, templates: SqlTemplates, dbTable: string, maxDigits: Option<nat>, decimalPlaces: Option<nat>)
      ensures Valid()
      ensures this.attrs == attrs && this.templates == templates && this.dbTable == dbTable
      ensures this.maxDigits == maxDigits && this.decimalPlaces == decimalPlaces
      ensures key == None && cachedCol == null
    {
      this.attrs := attrs;
      this.templates := templates;
      this.dbTable := dbTable;
      this.maxDigits := maxDigits;
      this.decimalPlaces := decimalPlaces;
      key := None;
      cachedCol := null;
    }

    /** db_type(): the stored column is bytea whatever the logical type. */
    function DbType(): (r: string)
      ensures r == "bytea"
    {
      "bytea"
    }

    /** The field's encrypt_sql. */
    function EncryptTemplate(): (t: OneSlotTemplate)
      ensures attrs.encryptSql == PgpSymEncryptSql ==> t == templates.encrypt
      ensures attrs.encryptSql == PgpSymEncryptSqlWithNullif ==> t == templates.encryptWithNullif
    {
      match attrs.encryptSql
      case PgpSymEncryptSql => templates.encrypt
      case PgpSymEncryptSqlWithNullif => templates.encryptWithNullif
    }

    /** get_cast_sql() */
    function GetCastSql(): (r: string)
      ensures attrs.castType.CastLiteral? ==> r == attrs.castType.sql
      ensures attrs.getCastSql == FormatCastType && attrs.castType.NumericCastPattern? ==>
        r == "NUMERIC(" + StrOfOptionalNat(maxDigits) + ", " + StrOfOptionalNat(decimalPlaces) + ")"
    {
      CastSql(attrs.castType, attrs.getCastSql, maxDigits, decimalPlaces)
    }

    /** get_decrypt_sql(): the decrypt template, its slots still open; no key goes into it. */
    function GetDecryptSql(): (r: ThreeSlotTemplate)
      ensures r == templates.decrypt
    {
      templates.decrypt
    }

    /**
     * get_placeholder(value, compiler, connection): encrypt_sql.format(self.key).
     * The value is not used; the key slot, whatever it holds, is what can be
     * read back out of the placeholder.
     */
    function GetPlaceholder(value: PyValue): (r: string)
      reads this
      ensures ExtractArgument(EncryptTemplate(), r) == Some(StrOfOptionalText(key))
    {
      ExtractRender(EncryptTemplate(), StrOfOptionalText(key));
      Render(EncryptTemplate(), [StrOfOptionalText(key)])
    }

    /**
     * pre_save(model_instance, add): resolve the row's key through the store,
     * leave it in the key slot, and return the attribute value as Django's
     * Field.pre_save does.
     */
    method PreSave(store: KeyStore, pk: Option<string>, entropy: Entropy, value: PyValue) returns (r: PyValue)
      modifies this`key, store
      ensures key == Some(ResolveKey(old(store.entries), pk, entropy).key)
      ensures store.entries == ResolveKey(old(store.entries), pk, entropy).store
      ensures StoreId(pk) in store.entries && key == Some(store.entries[StoreId(pk)])
      ensures GetPlaceholder(value) == Render(EncryptTemplate(), [store.entries[StoreId(pk)]])
      ensures r == value
    {
      var row := store.Select(pk);
      if row.None? {
        var k := GenerateKey(entropy);
        key := Some(k);
        store.Set(StoreId(pk), k);
      } else {
        key := row;
      }
      r := value;
    }

    /** Whether get_col must build its own column rather than hand out cached_col. */
    predicate NeedsOwnCol(alias: string, outputField: object?): (r: bool)
      ensures !r <==> alias == dbTable && (if outputField == null then this else outputField) == this
    {
      alias != dbTable || (outputField != null && outputField != this)
    }

    /** cached_col: built on first use from the model's table, then the same object every time. */
    method CachedCol() returns (c: DecryptedCol)
      requires Valid()
      modifies this`cachedCol
      ensures Valid() && cachedCol == c
      ensures old(cachedCol) != null ==> c == old(cachedCol)
      ensures old(cachedCol) == null ==> fresh(c)
      ensures c.alias == dbTable && c.target == this && c.outputField == this
    {
      if cachedCol == null {
        cachedCol := new DecryptedCol(dbTable, this, null);
      }
      c := cachedCol;
    }

    /**
     * get_col(alias, output_field=None): output_field defaults to the field; a
     * new DecryptedCol for another alias or another output field, otherwise the
     * cached same-table column.
     */
    method GetCol(alias: string, outputField: object?) returns (c: DecryptedCol)
      requires Valid()
      modifies this`cachedCol
      ensures Valid()
      ensures c.alias == alias && c.target == this
      ensures c.outputField == if outputField == null then this else outputField
      ensures NeedsOwnCol(alias, outputField) ==> fresh(c) && cachedCol == old(cachedCol)
      ensures !NeedsOwnCol(alias, outputField) ==> c == cachedCol
      ensures !NeedsOwnCol(alias, outputField) && old(cachedCol) != null ==> c == old(cachedCol)
    {
      var out: object := if outputField == null then this else outputField;
      if alias != dbTable || out != this {
        c := new DecryptedCol(alias, this, out);
      } else {
        c := CachedCol();
      }
    }
  }

  /** DecryptedCol: a column reference read through the decrypt template. */
  class DecryptedCol {
    const alias: string
    const target: PGPSymmetricKeyField
    const outputField: object

    /** Col.__init__: output_field defaults to the target field. */
    constructor (alias: string, target: PGPSymmetricKeyField, outputField: object?)
      ensures this.alias == alias && this.target == target
      ensures this.outputField == if outputField == null then target else outputField
    {
      this.alias := alias;
      this.target := target;
      this.outputField := if outputField == null then target else outputField;
    }

    /**
     * as_sql(compiler, connection): the plain column SQL and its parameters
     * (from Col.as_sql) become get_decrypt_sql() % (sql, alias, get_cast_sql()).
     */
    function AsSql(colSql: string, params: seq<PyValue>): (r: (string, seq<PyValue>))
      ensures r.1 == params
      ensures r.0 == Render(target.GetDecryptSql(), [colSql, alias, target.GetCastSql()])
    {
      (Render(target.GetDecryptSql(), [colSql, alias, target.GetCastSql()]), params)
    }
  }

  /**
   * The decrypting SQL holds the column SQL, the alias and the cast, each whole
   * in its own slot, and the decrypt template's text around them unchanged.
   */
  lemma AsSqlShowsColumnAliasCast(c: DecryptedCol, colSql: string, params: seq<PyValue>)
    ensures Shows(c.target.GetDecryptSql(), [colSql, c.alias, c.target.GetCastSql()], c.AsSql(colSql, params).0)
  {
    RenderShows(c.target.GetDecryptSql(), [colSql, c.alias, c.target.GetCastSql()]);
  }

  /** The placeholder depends on the key slot alone: equal keys, equal placeholders, for any values. */
  lemma PlaceholderDependsOnlyOnKey(f: PGPSymmetricKeyField, v1: PyValue, v2: PyValue)
    ensures f.GetPlaceholder(v1) == f.GetPlaceholder(v2)
  {
  }

  /** Different keys give different placeholders: the key is never lost in the SQL. */
  lemma PlaceholderDistinguishesKeys(t: OneSlotTemplate, k1: Option<string>, k2: Option<string>)
    requires StrOfOptionalText(k1) != StrOfOptionalText(k2)
    ensures Render(t, [StrOfOptionalText(k1)]) != Render(t, [StrOfOptionalText(k2)])
  {
    if Render(t, [StrOfOptionalText(k1)]) == Render(t, [StrOfOptionalText(k2)]) {
      RenderOneSlotInjective(t, StrOfOptionalText(k1), StrOfOptionalText(k2));
    }
  }
}
