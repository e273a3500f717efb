# django-pgcrypto-fields: per-row keys, SQL fragments and field descriptors

django-pgcrypto-fields provides Django model fields whose values Postgres stores
encrypted with `pgp_sym_encrypt`. It keeps one symmetric key per row in a key
store: a Redis database that Postgres also sees as the foreign table `key_store`.
This project models that core in Dafny and proves properties of the model:

- **Key resolution** (`pgcrypto/mixins.py`, `pre_save`). Before a row is saved,
  the field looks up the row's primary key in the store. It reuses the stored
  key, or mints a new one with `generate_key` and stores it under `str(pk)`.
  Either way the chosen key goes into the field's mutable `key` slot. The store
  is the class `Mixins.KeyStore`. The field is the class
  `Mixins.PGPSymmetricKeyField`, whose `key` and `cached_col` slots change in
  place.
- **Key generation**. `generate_key` is the base 64 encoding, per section 4 of
  RFC 4648, of 32 random bytes. The random bytes are a parameter. The encoder
  (`Base64`) has a decoder as its partner, and the two are proved to
  round-trip.
- **SQL fragments**:
  - `get_placeholder` puts the key into the encrypt template.
  - `DecryptedCol.as_sql` fills the decrypt template with the column SQL, the
    alias and the cast.
  - `get_col` hands out either a new `DecryptedCol` or the memoised
    same-table one.

  The template constants are defined in `pgcrypto/__init__.py`, which is not
  part of this model. They are therefore parameters: literal text around one
  key slot (encrypt) or three positional slots (decrypt), handled by
  `Templates`.
- **Field descriptors** (`pgcrypto/fields.py`). Each of the nine field classes
  gets its encrypt template, its `cast_type` and its `get_cast_sql` through
  Python's attribute lookup along its method resolution order. `Fields` models
  the bases, the class bodies, the C3 linearisation Python uses to order them,
  and the lookup. It proves that C3 yields the order used for lookup and that
  the lookup gives the intended table, including the precedence of
  `DecimalPGPFieldMixin` for decimals.
- **Settings and conversions** (`pgcrypto/constants.py` and `get_setting` in
  `pgcrypto/mixins.py`):
  - environment-then-settings lookup under the `DEFF_` prefix;
  - connection-then-settings lookup;
  - `get_bytes`, i.e. a str's UTF-8 encoding (`Utf8`, with a decoder as
    partner) or bytes unchanged, and a `TypeError` otherwise;
  - the import of the module-level constants.

Modelling choices:

- **Primary key.** A row's primary key is an `Option<string>`: its text, or
  None while the row has no pk. The lookup `id = %s::text` with a None pk
  compares with SQL NULL and never matches. The Redis write, however, uses
  `str(None)`, which is `"None"`.
- **Key slot.** `self.key` starts as None, and `'{}'.format(None)` is `"None"`.
  Both are modelled as the code does them (`Py.StrOfOptionalText`).
- **Identity.** Field and column identity (`output_field != self`,
  `cached_property`) is Dafny object identity. How this differs from Django's
  `Field.__eq__` is under "Left out".
- **Integers** are unbounded. The source does no fixed-width arithmetic.

## Model

| member | source | states |
|---|---|---|
| Mixins.GetSetting | pgcrypto/mixins.py:15-20 | the connection's settings_dict entry when the key is there, else the global setting, else AttributeError |
| Mixins.ConnectionSettingWins | pgcrypto/mixins.py:17-18 | once the connection holds the key, the global settings no longer affect the result |
| Mixins.GenerateKey | pgcrypto/mixins.py:162-164 | a key is 44 characters, 43 from the base 64 alphabet followed by one "=", and decodes back to exactly the 32 random bytes |
| Mixins.KeyShape | pgcrypto/mixins.py:164 | the RFC 4648 encoding of 32 bytes has length 44, ends in a single pad character and decodes back to its input |
| Mixins.GenerateKeyInjective | pgcrypto/mixins.py:162-164 | different random inputs give different keys |
| Base64.Encode | pgcrypto/mixins.py:164 | the output length is 4 * ceil(n / 3), as section 4 of RFC 4648 requires |
| Base64.DecodeEncode | pgcrypto/mixins.py:164 | decoding the encoding of any byte string gives that byte string back |
| Base64.EncodeInjective | pgcrypto/mixins.py:164 | distinct byte strings have distinct encodings |
| Base64.EncodeShapeTwoLeft | pgcrypto/mixins.py:164 | when n mod 3 is 2, the encoding is alphabet characters followed by exactly one "=" |
| Base64.ValueOfCharOf | pgcrypto/mixins.py:164 | each 6-bit value's alphabet character maps back to that value |
| Base64.CharOfIsAlphabet | pgcrypto/mixins.py:164 | the character for each 6-bit value is that value's entry in table 1 of RFC 4648, and the entry maps back to the value |
| Base64.EncodeTestVectors | pgcrypto/mixins.py:164 | the encoder gives the seven test vectors of section 10 of RFC 4648, from "" to "foobar" encoded as "Zm9vYmFy" |
| Mixins.StoreId | pgcrypto/mixins.py:156 | the Redis key is the pk's own text, and "None" for a row without a pk |
| Mixins.SelectKey | pgcrypto/mixins.py:151-152 | a row is found iff the pk is not None and the store holds it, and the row found is the stored key for str(pk) |
| Mixins.KeyStore.Select | pgcrypto/mixins.py:150-152 | the row the store returns for the pk is the one SelectKey specifies; the store is unchanged |
| Mixins.KeyStore.Set | pgcrypto/mixins.py:155-156 | the store afterwards is the old store with str(pk) mapped to the new key |
| Mixins.ResolveKey | pgcrypto/mixins.py:150-158 | a stored key is reused and the store left unchanged; otherwise a generated key is stored under str(pk); either way the store ends with str(pk) mapped to the chosen key |
| Mixins.ResolvedKeyIsStored | pgcrypto/mixins.py:153-158 | after resolution str(pk) maps to the chosen key, no entry is lost and every other entry is unchanged |
| Mixins.ResolveAgainIsNoOp | pgcrypto/mixins.py:145-160 | for a row with a pk, a second resolution (whatever its random input) leaves the store unchanged and yields the same key |
| Mixins.ResolveWithoutPkMintsAgain | pgcrypto/mixins.py:147-156 | for a row without a pk the lookup never matches, so each save mints a different key and overwrites the store's "None" entry |
| Mixins.PGPSymmetricKeyField.constructor | pgcrypto/mixins.py:141-143 | a new field has an empty key slot (None) and no cached column |
| Mixins.PGPSymmetricKeyField.PreSave | pgcrypto/mixins.py:145-160 | the key slot and the store are exactly what ResolveKey gives; the slot equals the store's entry for str(pk); the placeholder afterwards carries that key; the attribute value is returned unchanged |
| Mixins.PGPSymmetricKeyField.DbType | pgcrypto/mixins.py:92-94 | the column type is always bytea |
| Mixins.PGPSymmetricKeyField.EncryptTemplate | pgcrypto/mixins.py:137 | encrypt_sql is the plain template or the NULLIF one, as the class's resolved attribute selects |
| Mixins.PGPSymmetricKeyField.GetCastSql | pgcrypto/mixins.py:105-107 | a plain cast_type comes back unchanged; for a decimal the cast is exactly NUMERIC( str(max_digits) , str(decimal_places) ) |
| Mixins.PGPSymmetricKeyField.GetPlaceholder | pgcrypto/mixins.py:166-169 | the current key slot, formatted as str() formats it, is exactly what sits in the encrypt template's slot |
| Mixins.PlaceholderDependsOnlyOnKey | pgcrypto/mixins.py:166-169 | the value being saved has no influence on the placeholder |
| Mixins.PlaceholderDistinguishesKeys | pgcrypto/mixins.py:168 | different keys give different placeholder SQL |
| Mixins.PGPSymmetricKeyField.GetDecryptSql | pgcrypto/mixins.py:171-173 | the decrypt template is returned as declared, with no key substituted |
| Mixins.CastSql | pgcrypto/mixins.py:180-185 | DecimalPGPFieldMixin's get_cast_sql turns the pattern into exactly "NUMERIC(" + str(max_digits) + ", " + str(decimal_places) + ")"; PGPMixin's (lines 105-107) returns cast_type unchanged; a plain type name comes out unchanged from either |
| Mixins.NumericCastRoundTrip | pgcrypto/mixins.py:180-185 | max_digits and decimal_places, numbers or None, can be read back unchanged from the NUMERIC(p, s) cast |
| Mixins.DecimalCastExample | pgcrypto/mixins.py:178-185 | max_digits 8 and decimal_places 2 give the cast NUMERIC(8, 2) |
| Mixins.PGPSymmetricKeyField.CachedCol | pgcrypto/mixins.py:126-132 | the first call builds the same-table column of the field, and later calls return that same object |
| Mixins.PGPSymmetricKeyField.NeedsOwnCol | pgcrypto/mixins.py:115-117 | a new column is needed exactly when the alias is not the model's table or the output field, defaulting to the field, is another object |
| Mixins.PGPSymmetricKeyField.GetCol | pgcrypto/mixins.py:113-124 | output_field defaults to the field; a new column for another alias or output field, otherwise the memoised same-table column |
| Mixins.DecryptedCol.constructor | pgcrypto/mixins.py:26-30 | the column keeps alias and target; output_field defaults to the target |
| Mixins.DecryptedCol.AsSql | pgcrypto/mixins.py:32-36 | the SQL is the target's decrypt template filled with column SQL, alias and cast, in that order; the parameters pass through unchanged |
| Mixins.AsSqlShowsColumnAliasCast | pgcrypto/mixins.py:35 | each of the three values appears whole in its slot, and the template's literal text appears unchanged between them |
| Templates.Render | pgcrypto/mixins.py:35 | the filled template is exactly as long as its literal text plus its arguments |
| Templates.RenderPlacesArgument | pgcrypto/mixins.py:35 | the i-th argument appears whole at the i-th slot's offset |
| Templates.RenderKeepsLiteral | pgcrypto/mixins.py:35 | the i-th piece of literal text appears unchanged at its offset |
| Templates.ExtractRender | pgcrypto/mixins.py:168 | the argument of a one-slot template can be read back out of the filled template |
| Templates.RenderOneSlotInjective | pgcrypto/mixins.py:168 | different arguments fill a one-slot template differently |
| Fields.Bases | pgcrypto/fields.py:11-55 | each class's direct bases in the order its class statement lists them; every base sits lower in the hierarchy than its class, so the hierarchy has no cycle |
| Fields.Declared | pgcrypto/mixins.py:84-185 | what each class body binds among the modelled attributes; a method is bound by the class that defines it, and the field classes override only encrypt_sql and cast_type |
| Fields.Mro | pgcrypto/fields.py:11-55 | each field class's order starts with the class itself and ends with Django's Field |
| Fields.MroIsC3 | pgcrypto/fields.py:11-55 | the order used for lookup is exactly the one C3 linearisation (Python's type.mro()) computes from the class statements |
| Fields.LineariseIsLinearisation | pgcrypto/fields.py:11-55 | C3 succeeds on every field class, with no inconsistent-order TypeError, and its result has the linearisation properties |
| Fields.MroIsLinearisation | pgcrypto/fields.py:11-55 | each field class's order starts with the class, lists every ancestor once, and puts every class ahead of its bases in their declared order |
| Fields.Lookup | pgcrypto/fields.py:41-43 | attribute lookup along the order; what it returns is stated by Fields.LookupFindsFirst and Fields.FirstDeclarationWins |
| Fields.LookupFindsFirst | pgcrypto/fields.py:41-43 | attribute lookup gives the declaration of the first declaring class along the order, and nothing iff no class declares the attribute |
| Fields.FirstDeclarationWins | pgcrypto/fields.py:41-43 | the first declaring class decides the attribute, hiding every different later declaration |
| Fields.DescribeMatchesTable | pgcrypto/fields.py:11-55 | every field class resolves to the intended descriptor: TEXT and the plain template for Email, Text and Char; the NULLIF template with INT4, DATE, TIMESTAMP, DOUBLE PRECISION or TIME; NUMERIC and the plain template for Decimal |
| Fields.Describe | pgcrypto/fields.py:11-55 | a field class's descriptor is exactly its resolved encrypt_sql, its resolved cast_type and the owner of its resolved get_cast_sql |
| Fields.ResolvedEncryptSql | pgcrypto/fields.py:15-18 | encrypt_sql is the class's NULLIF override where it has one, else the mixin's plain template |
| Fields.ResolvedCastType | pgcrypto/fields.py:29-38 | cast_type is the class's override, else the decimal mixin's pattern, else TEXT |
| Fields.ResolvedGetCastSql | pgcrypto/fields.py:41-43 | get_cast_sql is the decimal mixin's for decimals and PGPMixin's for every other class |
| Fields.DbTypeIsPGPMixins | pgcrypto/mixins.py:92-94 | every field class gets db_type from PGPMixin, ahead of Django's Field, and so stores bytea |
| Fields.SymmetricMixinMethodsWin | pgcrypto/mixins.py:135-173 | pre_save, get_placeholder, get_decrypt_sql and decrypt_sql come from the symmetric-key mixin, ahead of PGPMixin's raising stubs and Django's pre_save |
| Fields.GetColIsPGPMixins | pgcrypto/mixins.py:113-132 | get_col comes from PGPMixin, ahead of Django's Field |
| Fields.DecimalMixinTakesPrecedence | pgcrypto/fields.py:41-43 | for decimals, DecimalPGPFieldMixin's cast_type and get_cast_sql hide the TEXT default and PGPMixin's get_cast_sql, while encrypt_sql stays the plain template |
| Fields.NewField | pgcrypto/fields.py:11-55 | a new field of a class carries that class's descriptor; only decimals keep max_digits and decimal_places |
| Fields.CastSqlOfEachClass | pgcrypto/fields.py:11-55 | the cast each class puts in the decrypt SQL; a decimal's cast gives back its max_digits and decimal_places |
| Fields.DecimalTestModelCast | pgcrypto/mixins.py:176-185 | the test model's decimal field (8, 2) decrypts with NUMERIC(8, 2) |
| Constants.SettingName | pgcrypto/constants.py:8 | the setting name is "DEFF_" followed by the name |
| Constants.GetSetting | pgcrypto/constants.py:7-9 | the environment value wins, then the setting, else None |
| Constants.EnvironmentWins | pgcrypto/constants.py:9 | once the environment holds the name, settings no longer matter |
| Constants.OnlyPrefixedNameMatters | pgcrypto/constants.py:8-9 | only the DEFF_-prefixed entries of either source affect the result |
| Constants.GetBytes | pgcrypto/constants.py:12-22 | success iff the value is str or bytes; bytes unchanged; a str's result decodes back to the str; anything else TypeError |
| Constants.GetBytesIdempotent | pgcrypto/constants.py:16-17 | feeding the result back in as bytes returns it unchanged |
| Constants.GetBytesInjectiveOnText | pgcrypto/constants.py:13-14 | different strings never give the same bytes |
| Constants.LoadConstants | pgcrypto/constants.py:25-28 | the import succeeds iff DEFF_SALT converts to bytes, fails with TypeError otherwise, and SALT is those bytes |
| Constants.MissingSaltFailsImport | pgcrypto/constants.py:25 | with DEFF_SALT set nowhere, the import fails with TypeError |
| Constants.SaltFromEnvironment | pgcrypto/constants.py:25 | a DEFF_SALT environment variable is used as its UTF-8 bytes |
| Utf8.EncodeChar | pgcrypto/constants.py:14 | a character takes one to four bytes, one exactly when it is ASCII, and then that byte is its code |
| Utf8.EncodeCharLayout | pgcrypto/constants.py:14 | the byte count follows the scalar value's range, the lead byte announces the count and every later byte is a continuation byte, as in section 3 of RFC 3629 |
| Utf8.EncodeCharVectors | pgcrypto/constants.py:14 | 'A', 'é', '€' and U+1F600 encode to 41, C3 A9, E2 82 AC and F0 9F 98 80 |
| Utf8.Encode | pgcrypto/constants.py:14 | the encoding of n characters takes between n and 4n bytes |
| Utf8.DecodeEncodeChar | pgcrypto/constants.py:14 | the decoder reads back exactly one encoded character and its length |
| Utf8.DecodeEncode | pgcrypto/constants.py:14 | decoding the UTF-8 encoding of any string gives the string back |
| Utf8.EncodeAppend | pgcrypto/constants.py:14 | the encoding of a concatenation is the concatenation of the encodings |
| Utf8.EncodeAscii | pgcrypto/constants.py:14 | an ASCII string encodes to its own character codes, one byte each |
| Py.StrOfNat | pgcrypto/mixins.py:182-185 | str() of a number is decimal digits without a leading zero, one digit exactly below 10 |
| Py.ParseStrOfNat | pgcrypto/mixins.py:182-185 | the digits str() writes parse back to the number |
| Py.StrOfOptionalNat | pgcrypto/mixins.py:182-185 | %s of None is "None", and of a number exactly str() of it: digits that parse back to the number |
| Py.ParseStrOfOptionalNat | pgcrypto/mixins.py:182-185 | what %s writes for a number or None reads back as that value |
| Py.StrOfOptionalText | pgcrypto/mixins.py:156 | str() of a str is itself, and of None is "None" |

## Left out

- pgcrypto/crypt.py: the Fernet and PBKDF2 wrappers call into the cryptography library, a foreign dependency.
- The pgp_sym_encrypt and pgp_sym_decrypt transforms and Postgres casts run inside the database. The templates that call them are opaque text with slots.
- The texts of PGP_SYM_ENCRYPT_SQL, PGP_SYM_ENCRYPT_SQL_WITH_NULLIF and PGP_SYM_DECRYPT_SQL: pgcrypto/__init__.py is not part of this model. The model takes them as parameters and treats them as having no directives other than the slots (no other braces and no % escapes).
- Database cursor and Redis client I/O in pre_save: connection handling, the hard-coded host "redis", port 6379 and db 0, and failures are not modelled. The SQL table key_store and the Redis database 0 are one store (the foreign table set up in pgcrypto/migrations/0001_add_pgcrypto_extension.py), modelled as Mixins.KeyStore.
- pgcrypto/migrations/0001_add_pgcrypto_extension.py: schema bootstrap SQL.
- Mixins.PGPSymmetricKeyField.PreSave: the call to Django's Field.pre_save is modelled only by its result, the attribute value, which is a parameter. getattr(model_instance, "pk") is likewise the pk parameter, already in its text form.
- Mixins.PGPSymmetricKeyField.PreSave: saves are modelled one at a time. The SELECT then SET in pgcrypto/mixins.py:151-156 is not atomic, so two concurrent first saves of one row can each mint a key, and the last SET wins. self.key (pgcrypto/mixins.py:143, 154, 158) is one slot on the field object, shared by every row and thread, and get_placeholder reads whatever the latest pre_save left there.
- Mixins.PGPSymmetricKeyField.GetCol: output_field != self goes through Django's Field.__eq__, which in Django 2.x compares creation_counter rather than identity. The model compares object identity, so for a distinct field object with the same creation_counter (a copy of the field) the source returns cached_col where the model builds a new column.
- Mixins.CastSql: max_digits and decimal_places are Option<nat>. Python's % formatting writes any value (a max_digits of -1 gives "NUMERIC(-1, 2)"); only Django's field checks reject such values.
- Fields.Linearise: C3 is computed over the modelled classes only. Django's field classes are each folded into one class above Field, as described under Fields.Declared.
- Mixins.GenerateKey: urandom is a parameter (32 bytes), so nothing is claimed about randomness.
- PGPMixin's get_placeholder and get_decrypt_sql raise NotImplementedError. They appear only as declarations in the attribute lookup, where Fields.SymmetricMixinMethodsWin shows they are never reached. PGPMixin.pre_save delegates to Django and is likewise hidden by the symmetric-key mixin.
- Fields.Declared: Django's own field classes are modelled only through the modelled attributes they declare: db_type, pre_save and get_col on Field, and pre_save on DateField, DateTimeField and TimeField. Their own bases (CharField under EmailField, DateTimeCheckMixin and so on) are folded into one Django class per field. None of them declares encrypt_sql, decrypt_sql, cast_type, get_placeholder or get_decrypt_sql, so this does not change any lookup.
- Django ORM internals: Col.as_sql (its output is the colSql and params parameters of Mixins.DecryptedCol.AsSql), the cached_property machinery (a field slot), check(), forms and the query-level tests.
- Float value round-tripping: floating point.
- Strings are Unicode scalar values. Python's lone surrogates, which str.encode("utf-8") rejects, cannot occur in the model.
- Not present in this code and not modelled: a process-wide key cache, a conditional set-if-absent write, and recovering row identity from filter trees.
