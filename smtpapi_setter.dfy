/**
 * Reading the X-SMTPAPI header, and the SmtpapiSetter object that copies its
 * categories, unique arguments and IP pool onto an email.
 */
module Smtpapi {
  import opened Wrappers
  import opened Json
  import opened Message
  import opened SendGridMail

  /** The start of the ArgumentError message for a value that is not JSON; the raw value follows. */
  const NotJsonPrefix: string := "X-SMTPAPI is not JSON: "

  /**
   * The raw X-SMTPAPI value the delivery method reads: the first field when
   * the header occurs more than once, and nothing when that field has no value.
   */
  function SelectFirst(field: seq<Option<string>>): (r: Option<string>)
    ensures r.Some? <==> |field| > 0 && field[0].Some?
    ensures r.Some? ==> r.value == field[0].value
  {
    if field == [] then None else field[0]
  }

  /**
   * `smtpapi_field && smtpapi_field.value` as SmtpapiSetter evaluates it:
   * `mail['X-SMTPAPI']` is nil, one field, or an Array of fields when the
   * header occurs more than once, and an Array has no `value`.
   */
  function FieldValue(field: seq<Option<string>>): Result<Option<string>, Error> {
    if |field| == 0 then Success(None)
    else if |field| == 1 then Success(field[0])
    else Failure(NoMethodError("value"))
  }

  /** The two readings agree exactly when the header occurs at most once. */
  lemma FieldValueAgrees(field: seq<Option<string>>)
    ensures FieldValue(field).Success? <==> |field| <= 1
    ensures FieldValue(field).Success? ==> FieldValue(field).value == SelectFirst(field)
  {
  }

  /** A header set both as a default and per message: the setter raises where the delivery method uses the first. */
  lemma RepeatedHeaderRaises()
    ensures FieldValue([Some("{\"category\":\"a\"}"), Some("{}")]) == Failure(NoMethodError("value"))
    ensures SelectFirst([Some("{\"category\":\"a\"}"), Some("{}")]) == Some("{\"category\":\"a\"}")
  {
  }

  /** `set_categories`: the categories `Array(data['category'])` adds, or what its evaluation raises. */
  function CategoryStep(d: Json): Result<seq<Json>, Error> {
    match Index(d, "category")
    case Success(v) => Success(ArrayOf(v))
    case Failure(e) => Failure(e)
  }

  /** `set_unique_args`: the pairs `(data['unique_args'] || {}).each` yields, or what it raises. */
  function UniqueArgStep(d: Json): Result<seq<(Json, Json)>, Error> {
    match Index(d, "unique_args")
    case Success(v) => EachPair(v)
    case Failure(e) => Failure(e)
  }

  /**
   * `set_ip_pool`: Some(value) when `set_ip_pool(data['ip_pool'])` runs, None
   * when it does not. The test is the presence of the key, not the truth of
   * its value, so a key holding null still reaches the setter.
   */
  function IpPoolStep(d: Json): (r: Result<Option<Json>, Error>)
    ensures d.JObj? ==> r.Success?
    ensures d.JObj? ==> (r.value.Some? <==> exists i :: 0 <= i < |d.fields| && d.fields[i].0 == "ip_pool")
    ensures d.JObj? && r.value.Some? ==> ("ip_pool", r.value.value) in d.fields
    ensures !d.JObj? ==> r == Failure(NoMethodError("key?"))
  {
    match HasKey(d, "ip_pool")
    case Failure(e) => Failure(e)
    case Success(present) => if present then Success(Index(d, "ip_pool").value) else Success(None)
  }

  /**
   * For a Hash, each unique argument arrives under its own key with its value
   * unchanged, and keys already present that the Hash does not mention keep
   * their values.
   */
  lemma {:induction false} UniqueArgsOfHash(m: map<Json, Json>, d: Json, fields: seq<(string, Json)>)
    requires d.JObj? && Lookup(d.fields, "unique_args") == Some(JObj(fields)) && DistinctKeys(fields)
    ensures UniqueArgStep(d).Success?
    ensures var added := InsertAll(m, UniqueArgStep(d).value);
      && (forall i :: 0 <= i < |fields| ==> JStr(fields[i].0) in added && added[JStr(fields[i].0)] == fields[i].1)
      && (forall k :: k in m && (forall i :: 0 <= i < |fields| ==> k != JStr(fields[i].0)) ==> k in added && added[k] == m[k])
      && added.Keys == m.Keys + set i | 0 <= i < |fields| :: JStr(fields[i].0)
  {
    assert UniqueArgStep(d) == Success(HashPairs(fields)) by {
      assert Index(d, "unique_args") == Success(Some(JObj(fields)));
    }
    var added := InsertAll(m, HashPairs(fields));
    forall i | 0 <= i < |fields|
      ensures JStr(fields[i].0) in added && added[JStr(fields[i].0)] == fields[i].1
    {
      HashArgOwn(m, fields, i);
    }
    forall k | k in m && (forall i :: 0 <= i < |fields| ==> k != JStr(fields[i].0))
      ensures k in added && added[k] == m[k]
    {
      InsertAllFacts(m, HashPairs(fields), k);
    }
    HashArgKeys(m, fields);
  }

  /** With distinct keys, the pair for `fields[i]` is the last to carry its key, so its value stays. */
  lemma HashArgOwn(m: map<Json, Json>, fields: seq<(string, Json)>, i: nat)
    requires DistinctKeys(fields) && i < |fields|
    ensures JStr(fields[i].0) in InsertAll(m, HashPairs(fields))
    ensures InsertAll(m, HashPairs(fields))[JStr(fields[i].0)] == fields[i].1
  {
    var pairs := HashPairs(fields);
    assert pairs[i] == (JStr(fields[i].0), fields[i].1);
    assert forall j :: i < j < |pairs| ==> pairs[j].0 != JStr(fields[i].0);
    InsertAllFacts(m, pairs, JStr(fields[i].0));
  }

  /** Adding the pairs of a Hash adds exactly its keys. */
  lemma HashArgKeys(m: map<Json, Json>, fields: seq<(string, Json)>)
    ensures InsertAll(m, HashPairs(fields)).Keys == m.Keys + set i | 0 <= i < |fields| :: JStr(fields[i].0)
  {
    var pairs := HashPairs(fields);
    var added := InsertAll(m, pairs);
    var named := set i | 0 <= i < |fields| :: JStr(fields[i].0);
    forall k | k in added
      ensures k in m.Keys + named
    {
      InsertAllFacts(m, pairs, k);
      if k !in m {
        var i :| 0 <= i < |pairs| && pairs[i].0 == k;
        assert k == JStr(fields[i].0);
      }
    }
    forall k | k in m.Keys + named
      ensures k in added
    {
      InsertAllFacts(m, pairs, k);
      if k !in m {
        var i :| 0 <= i < |fields| && k == JStr(fields[i].0);
        assert pairs[i].0 == k;
      }
    }
  }

  /**
   * `SendGridActionMailer::SmtpapiSetter`: holds the email, the X-SMTPAPI
   * field and the memoised parse of its value, `@data`.
   */
  class SmtpapiSetter {
    const email: Email
    /** `@smtpapi_field`: the value of each X-SMTPAPI field of the message. */
    const field: seq<Option<string>>
    /** `JSON.parse`; None is JSON::ParserError. */
    const parse: string -> Option<Json>
    /** `@data`: nil until a parse gives a truthy value. */
    var data: Option<Json>
    /** How many times JSON.parse has run for this setter. */
    ghost var parses: nat

    ghost predicate Valid()
      reads this
    {
      data.Some? ==> Present() && parse(Raw()) == data && Truthy(data) && parses > 0
    }

    /** The field is one occurrence with a value. */
    predicate Present() {
      |field| == 1 && field[0].Some?
    }

    function Raw(): string
      requires Present()
    {
      field[0].value
    }

    constructor (email: Email, mail: Mail, parse: string -> Option<Json>)
      ensures Valid()
      ensures this.email == email && field == mail.smtpapi && this.parse == parse
      ensures data.None? && parses == 0
    {
      this.email := email;
      field := mail.smtpapi;
      this.parse := parse;
      data := None;
      parses := 0;
    }

    /** `data`: `@data ||= JSON.parse(smtpapi_field.value)`. */
    method Data() returns (r: Result<Json, Error>)
      requires Valid() && Present()
      modifies this`data, this`parses
      ensures Valid()
      ensures r == if parse(Raw()).Some? then Success(parse(Raw()).value) else Failure(ParserError)
      ensures old(data).Some? ==> data == old(data) && parses == old(parses)
      ensures old(data).None? ==> parses == old(parses) + 1
      ensures data.Some? <==> r.Success? && Truthy(Some(r.value))
    {
      if data.Some? {
        return Success(data.value);
      }
      var parsed := parse(Raw());
      parses := parses + 1;
      if parsed.None? {
        return Failure(ParserError);
      }
      if Truthy(parsed) {
        data := parsed;
      }
      r := Success(parsed.value);
    }

    /** `set_categories`: `add_category` for each element of `Array(data['category'])`. */
    method SetCategories() returns (r: Outcome<Error>)
      requires Valid() && Present()
      modifies this`data, this`parses, email.smtpapi`categories
      ensures Valid()
      ensures old(data).Some? ==> data == old(data) && parses == old(parses)
      ensures parses <= old(parses) + 1
      ensures parse(Raw()).None? ==> r == Fail(ParserError) && email.smtpapi.categories == old(email.smtpapi.categories)
      ensures parse(Raw()).Some? ==>
        var c := CategoryStep(parse(Raw()).value);
        && r == (if c.Success? then Pass else Fail(c.error))
        && email.smtpapi.categories == old(email.smtpapi.categories) + (if c.Success? then c.value else [])
      ensures r.Pass? ==> data.Some?
    {
      var d := Data();
      if d.Failure? {
        return Fail(d.error);
      }
      var category := Index(d.value, "category");
      if category.Failure? {
        return Fail(category.error);
      }
      var categories := ArrayOf(category.value);
      ghost var data0, parses0 := data, parses;
      for i := 0 to |categories|
        invariant data == data0 && parses == parses0
        invariant email.smtpapi.categories == old(email.smtpapi.categories) + categories[..i]
      {
        email.smtpapi.categories := email.smtpapi.categories + [categories[i]];
      }
      return Pass;
    }

    /** `set_unique_args`: `add_unique_arg(key, value)` for each pair of `data['unique_args'] || {}`. */
    method SetUniqueArgs() returns (r: Outcome<Error>)
      requires Valid() && Present() && data.Some?
      modifies this`data, this`parses, email.smtpapi`uniqueArgs
      ensures data == old(data) && parses == old(parses)
      ensures var u := UniqueArgStep(data.value);
        && r == (if u.Success? then Pass else Fail(u.error))
        && email.smtpapi.uniqueArgs == if u.Success? then InsertAll(old(email.smtpapi.uniqueArgs), u.value) else old(email.smtpapi.uniqueArgs)
    {
      var d := Data();
      var args := Index(d.value, "unique_args");
      if args.Failure? {
        return Fail(args.error);
      }
      var pairs := EachPair(args.value);
      if pairs.Failure? {
        return Fail(pairs.error);
      }
      ghost var data0, parses0 := data, parses;
      for i := 0 to |pairs.value|
        invariant data == data0 && parses == parses0
        invariant email.smtpapi.uniqueArgs == InsertAll(old(email.smtpapi.uniqueArgs), pairs.value[..i])
      {
        var (key, value) := pairs.value[i];
        assert pairs.value[..i + 1][..i] == pairs.value[..i];
        email.smtpapi.uniqueArgs := email.smtpapi.uniqueArgs[key := value];
      }
      assert pairs.value[..|pairs.value|] == pairs.value;
      return Pass;
    }

    /** `set_ip_pool`: `set_ip_pool(data['ip_pool'])` when `data.key?('ip_pool')`. */
    method SetIpPool() returns (r: Outcome<Error>)
      requires Valid() && Present() && data.Some?
      modifies this`data, this`parses, email.smtpapi`settings
      ensures data == old(data) && parses == old(parses)
      ensures var p := IpPoolStep(data.value);
        && r == (if p.Success? then Pass else Fail(p.error))
        && email.smtpapi.settings == if p.Success? && p.value.Some? then old(email.smtpapi.settings)["ip_pool" := p.value.value] else old(email.smtpapi.settings)
    {
      var d := Data();
      var present := HasKey(d.value, "ip_pool");
      if present.Failure? {
        return Fail(present.error);
      }
      if present.value {
        d := Data();
        var pool := Index(d.value, "ip_pool");
        email.smtpapi.settings := email.smtpapi.settings["ip_pool" := pool.value.value];
      }
      return Pass;
    }

    /**
     * `set!`: nothing happens without an X-SMTPAPI value; otherwise the
     * categories, then the unique arguments, then the IP pool are copied,
     * stopping at the first exception, and a value that is not JSON raises
     * ArgumentError naming it. The value is parsed at most once per call, and
     * not at all once an earlier call has memoised it. Nothing outside the
     * email's `smtpapi` object changes.
     */
    method Set() returns (r: Outcome<Error>)
      requires Valid()
      modifies this`data, this`parses, email.smtpapi
      ensures Valid()
      ensures unchanged(email)
      ensures parses <= old(parses) + 1
      ensures old(data).Some? ==> data == old(data) && parses == old(parses)
      ensures FieldValue(field).Failure? ==>
        r == Fail(FieldValue(field).error) && unchanged(email.smtpapi) && parses == old(parses)
      ensures FieldValue(field) == Success(None) ==>
        r.Pass? && unchanged(email.smtpapi) && parses == old(parses)
      ensures Present() && parse(Raw()).None? ==>
        r == Fail(ArgumentError(NotJsonPrefix + Raw())) && unchanged(email.smtpapi)
      ensures Present() && parse(Raw()).Some? ==>
        var d := parse(Raw()).value;
        var c, u, p := CategoryStep(d), UniqueArgStep(d), IpPoolStep(d);
        && email.smtpapi.categories == old(email.smtpapi.categories) + (if c.Success? then c.value else [])
        && email.smtpapi.uniqueArgs ==
             (if c.Success? && u.Success? then InsertAll(old(email.smtpapi.uniqueArgs), u.value)
              else old(email.smtpapi.uniqueArgs))
        && email.smtpapi.settings ==
             (if c.Success? && u.Success? && p.Success? && p.value.Some?
              then old(email.smtpapi.settings)["ip_pool" := p.value.value]
              else old(email.smtpapi.settings))
        && r == (if c.Failure? then Fail(c.error)
                 else if u.Failure? then Fail(u.error)
                 else if p.Failure? then Fail(p.error)
                 else Pass)
      ensures Present() && r.Pass? ==> data.Some?
    {
      var value := FieldValue(field);
      if value.Failure? {
        return Fail(value.error);
      }
      if value.value.None? {
        return Pass;
      }
      r := SetCategories();
      if r == Fail(ParserError) {
        return Fail(ArgumentError(NotJsonPrefix + Raw()));
      }
      if r.Fail? {
        return r;
      }
      r := SetUniqueArgs();
      if r.Fail? {
        return r;
      }
      r := SetIpPool();
    }
  }
}
