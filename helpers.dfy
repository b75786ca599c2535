/** The schema validators of utils/helpers.py.

    Each validator is written as the Python is: a chain of checks that stops
    with `False` at the first one that fails, in which every `in` and every
    `[]` may raise. Beside each validator stands a declarative description of
    the documents it accepts, and the lemmas relate the two. */
module Helpers {
  import opened PyJson

  const PostFields: seq<string> := ["userId", "id", "title", "body"]
  const UserFields: seq<string> := ["id", "name", "username", "email", "address", "phone", "website", "company"]
  const AddressFields: seq<string> := ["street", "suite", "city", "zipcode", "geo"]
  const GeoFields: seq<string> := ["lat", "lng"]
  const CompanyFields: seq<string> := ["name", "catchPhrase", "bs"]

  /** Every name in `fields` is `in` the container `v`. */
  predicate AllPresent(v: Json, fields: seq<string>) {
    forall f | f in fields :: Has(v, f)
  }

  // ---------------------------------------------------------------------
  // validate_response_schema
  // ---------------------------------------------------------------------

  /** `all(field in data for field in fields)`: the generator is consumed in
      order and `all` stops at the first False, so an exception from `in`
      can only come from a name that is reached. */
  function ValidateResponseSchema(data: Json, fields: seq<string>): (r: Outcome<bool>)
    ensures fields == [] ==> r == Returns(true)
    ensures IsContainer(data) ==> r == Returns(AllPresent(data, fields))
    ensures !IsContainer(data) && fields != [] ==> r == Raises(TypeError)
  {
    if fields == [] then Returns(true)
    else
      var found :- Contains(data, fields[0]);
      assert fields[0] in fields;
      if !found then Returns(false)
      else
        var rest := ValidateResponseSchema(data, fields[1..]);
        assert forall f | f in fields :: f == fields[0] || f in fields[1..];
        rest
  }

  /** On a dict the check is exactly "every name is a key". */
  lemma ResponseSchemaOnObject(m: map<string, Json>, fields: seq<string>)
    ensures ValidateResponseSchema(JObject(m), fields) == Returns(forall f | f in fields :: f in m)
  {
    assert forall f :: Has(JObject(m), f) <==> f in m;
  }

  /** Dropping names from the list never turns True into False, whatever
      kind of value is checked. */
  lemma ResponseSchemaFewerFields(data: Json, fields: seq<string>, fewer: seq<string>)
    requires forall f | f in fewer :: f in fields
    requires ValidateResponseSchema(data, fields) == Returns(true)
    ensures ValidateResponseSchema(data, fewer) == Returns(true)
  {
    if !IsContainer(data) && fewer != [] {
      // `fewer[0]` is in `fields`, so the check on `fields` would have raised
      HeadIsMember(fewer);
      assert false;
    }
  }

  /** Names the first element of a non-empty list, so that the membership
      quantifier above can be instantiated. */
  lemma HeadIsMember(s: seq<string>)
    requires s != []
    ensures s[0] in s
  {
  }

  /** Adding keys to a dict never turns True into False. */
  lemma ResponseSchemaMoreKeys(m: map<string, Json>, more: map<string, Json>, fields: seq<string>)
    requires m.Keys <= more.Keys
    requires ValidateResponseSchema(JObject(m), fields) == Returns(true)
    ensures ValidateResponseSchema(JObject(more), fields) == Returns(true)
  {
    ResponseSchemaOnObject(m, fields);
    ResponseSchemaOnObject(more, fields);
  }

  /** Keys outside the list never change the result on a dict. */
  lemma ResponseSchemaIgnoresExtraKeys(m: map<string, Json>, extra: map<string, Json>, fields: seq<string>)
    requires forall f | f in fields :: f !in extra
    ensures ValidateResponseSchema(JObject(m + extra), fields) == ValidateResponseSchema(JObject(m), fields)
  {
    ResponseSchemaOnObject(m, fields);
    ResponseSchemaOnObject(m + extra, fields);
  }

  /** Once the check has passed, a later `name in data` for a listed name
      evaluates to True: this is why the guards `'address' in user_data`,
      `'geo' in user_data['address']` and `'company' in user_data` can never
      fail. */
  lemma PresentFieldIsIn(data: Json, fields: seq<string>, name: string)
    requires name in fields
    requires ValidateResponseSchema(data, fields) == Returns(true)
    ensures Contains(data, name) == Returns(true)
  {
    assert IsContainer(data);
  }

  // ---------------------------------------------------------------------
  // validate_post_schema
  // ---------------------------------------------------------------------

  /** The documents validate_post_schema accepts: a dict with the four
      keys, an `int` (or `bool`) under `userId` and `id`, and a `str` under
      `title` and `body`. */
  predicate IsPost(post: Json) {
    && post.JObject?
    && "userId" in post.fields && "id" in post.fields
    && "title" in post.fields && "body" in post.fields
    && IsInstanceInt(post.fields["userId"])
    && IsInstanceInt(post.fields["id"])
    && IsInstanceStr(post.fields["title"])
    && IsInstanceStr(post.fields["body"])
  }

  function ValidatePostSchema(post: Json): (r: Outcome<bool>)
    ensures r == Returns(true) <==> IsPost(post)
    ensures post.JObject? ==> r == Returns(IsPost(post))
    ensures r != Raises(KeyError)
    ensures IsContainer(post) && !AllPresent(post, PostFields) ==> r == Returns(false)
    ensures !IsContainer(post) ==> r == Raises(TypeError)
    ensures r.Raises? <==> !IsContainer(post) || (!post.JObject? && AllPresent(post, PostFields))
  {
    var present :- ValidateResponseSchema(post, PostFields);
    if !present then Returns(false)
    else
      assert post.JObject? ==> forall f | f in PostFields :: f in post.fields;
      var userId :- Subscript(post, "userId");
      // `post_data['userId']` returned, so `post_data` is a dict holding all
      // four keys and the later subscripts cannot raise
      if !IsInstanceInt(userId) then Returns(false)
      else
        var id := Subscript(post, "id").Extract();
        if !IsInstanceInt(id) then Returns(false)
        else
          var title := Subscript(post, "title").Extract();
          if !IsInstanceStr(title) then Returns(false)
          else
            var body := Subscript(post, "body").Extract();
            if !IsInstanceStr(body) then Returns(false)
            else Returns(true)
  }

  /** The result depends only on the four required keys: two dicts that
      agree on which of them are present and on their values are judged
      alike, so extra keys never matter. */
  lemma PostSchemaReadsOnlyRequired(m: map<string, Json>, m': map<string, Json>)
    requires forall f | f in PostFields :: (f in m <==> f in m')
    requires forall f | f in PostFields && f in m :: m[f] == m'[f]
    ensures ValidatePostSchema(JObject(m)) == ValidatePostSchema(JObject(m'))
  {
    assert "userId" in PostFields && "id" in PostFields;
    assert "title" in PostFields && "body" in PostFields;
  }

  /** Keys outside the required list leave the result unchanged. */
  lemma PostSchemaIgnoresExtraKeys(m: map<string, Json>, extra: map<string, Json>)
    requires forall f | f in PostFields :: f !in extra
    ensures ValidatePostSchema(JObject(m + extra)) == ValidatePostSchema(JObject(m))
  {
    PostSchemaReadsOnlyRequired(m + extra, m);
  }

  /** JSON booleans pass the integer checks on `userId` and `id`, since
      Python's `bool` is a subclass of `int`. */
  lemma PostSchemaAcceptsBooleanIds(title: string, body: string)
    ensures ValidatePostSchema(JObject(map["userId" := JBool(true), "id" := JBool(false),
                                           "title" := JString(title), "body" := JString(body)]))
         == Returns(true)
  {
  }

  // ---------------------------------------------------------------------
  // validate_user_schema
  // ---------------------------------------------------------------------

  /** Lines 136-145 of the source: `Returns(true)` means "carry on",
      `Returns(false)` means the validator returns False here. */
  function CheckAddress(user: Json): (r: Outcome<bool>)
    ensures r != Raises(KeyError)
    ensures user.JObject? && "address" in user.fields ==>
              (r == Returns(true) <==> IsAddress(user.fields["address"]))
    ensures user.JObject? && "address" in user.fields ==>
              (r.Raises? <==> AddressRaises(user.fields["address"]))
  {
    var hasAddress :- Contains(user, "address");
    if !hasAddress then Returns(true)
    else
      var address :- Subscript(user, "address");
      var present :- ValidateResponseSchema(address, AddressFields);
      if !present then Returns(false)
      else
        // the presence check passed on a non-empty list, so `address` is a
        // container and `'geo' in address` cannot raise
        assert "geo" in AddressFields;
        var hasGeo := Contains(address, "geo").Extract();
        if !hasGeo then Returns(true)
        else
          var geo :- Subscript(address, "geo");
          ValidateResponseSchema(geo, GeoFields)
  }

  /** Lines 148-151 of the source, read as CheckAddress is. */
  function CheckCompany(user: Json): (r: Outcome<bool>)
    ensures r != Raises(KeyError)
    ensures user.JObject? && "company" in user.fields ==>
              (r == Returns(true) <==> IsCompany(user.fields["company"]))
    ensures user.JObject? && "company" in user.fields ==>
              (r.Raises? <==> !IsContainer(user.fields["company"]))
  {
    var hasCompany :- Contains(user, "company");
    if !hasCompany then Returns(true)
    else
      var company :- Subscript(user, "company");
      ValidateResponseSchema(company, CompanyFields)
  }

  /** An accepted `address`: a dict with the five keys whose `geo` is a
      dict, list or str in which `lat` and `lng` are found. */
  predicate IsAddress(address: Json) {
    && address.JObject?
    && AllPresent(address, AddressFields)
    && "geo" in address.fields
    && IsContainer(address.fields["geo"])
    && AllPresent(address.fields["geo"], GeoFields)
  }

  /** The `address` values on which lines 136-145 raise TypeError: None, a
      bool or a number (line 138); a list or str holding the five names,
      which line 144 then subscripts with 'geo'; or a dict with the five keys
      whose `geo` is None, a bool or a number (line 144). */
  predicate AddressRaises(address: Json) {
    || !IsContainer(address)
    || (!address.JObject? && AllPresent(address, AddressFields))
    || (&& address.JObject?
        && AllPresent(address, AddressFields)
        && "geo" in address.fields
        && !IsContainer(address.fields["geo"]))
  }

  /** An accepted `company`: a dict, list or str in which the three names
      are found. */
  predicate IsCompany(company: Json) {
    IsContainer(company) && AllPresent(company, CompanyFields)
  }

  /** The documents validate_user_schema accepts. `address` and `company`
      are among UserFields; they are named again to look them up. No value's
      type is checked, and `email` need not contain '@'. */
  predicate IsUser(user: Json) {
    && user.JObject?
    && AllPresent(user, UserFields)
    && "address" in user.fields && IsAddress(user.fields["address"])
    && "company" in user.fields && IsCompany(user.fields["company"])
  }

  /** The documents on which validate_user_schema raises TypeError: None, a
      bool or a number (line 132); a list or str holding the eight names,
      which line 138 then subscripts with 'address'; a dict whose `address`
      raises; or a dict whose `address` passes and whose `company` is None,
      a bool or a number (line 150). */
  predicate UserRaises(user: Json) {
    || !IsContainer(user)
    || (!user.JObject? && AllPresent(user, UserFields))
    || (&& user.JObject?
        && AllPresent(user, UserFields)
        && "address" in user.fields && "company" in user.fields
        && (|| AddressRaises(user.fields["address"])
            || (IsAddress(user.fields["address"]) && !IsContainer(user.fields["company"]))))
  }

  function ValidateUserSchema(user: Json): (r: Outcome<bool>)
    ensures r == Returns(true) <==> IsUser(user)
    ensures r == Raises(TypeError) <==> UserRaises(user)
    ensures r != Raises(KeyError)
    ensures IsContainer(user) && !AllPresent(user, UserFields) ==> r == Returns(false)
    ensures !IsContainer(user) ==> r == Raises(TypeError)
  {
    var present :- ValidateResponseSchema(user, UserFields);
    if !present then Returns(false)
    else
      assert "address" in UserFields && "company" in UserFields;
      var addressOk :- CheckAddress(user);
      if !addressOk then Returns(false)
      else CheckCompany(user)
  }

  /** A True result means the nested objects have their keys: `address`
      has `street`, `suite`, `city`, `zipcode` and `geo`, `geo` has `lat` and
      `lng`, and `company` has `name`, `catchPhrase` and `bs`. */
  lemma UserSchemaNestedKeys(user: Json)
    requires ValidateUserSchema(user) == Returns(true)
    ensures user.JObject? && "address" in user.fields && "company" in user.fields
    ensures var address := user.fields["address"];
            && address.JObject?
            && "street" in address.fields && "suite" in address.fields
            && "city" in address.fields && "zipcode" in address.fields
            && "geo" in address.fields
            && Has(address.fields["geo"], "lat") && Has(address.fields["geo"], "lng")
    ensures var company := user.fields["company"];
            Has(company, "name") && Has(company, "catchPhrase") && Has(company, "bs")
  {
    var address := user.fields["address"];
    assert "street" in AddressFields && "suite" in AddressFields && "city" in AddressFields;
    assert "zipcode" in AddressFields && "geo" in AddressFields;
    assert "lat" in GeoFields && "lng" in GeoFields;
    assert "name" in CompanyFields && "catchPhrase" in CompanyFields && "bs" in CompanyFields;
  }

  /** The nested values of a user dict are dicts wherever they are present:
      the shape JSON users have, on which `in` and `[]` cannot raise. */
  predicate NestedAreObjects(m: map<string, Json>) {
    && ("address" in m ==> m["address"].JObject?)
    && ("address" in m && m["address"].JObject? ==>
          ("geo" in m["address"].fields ==> m["address"].fields["geo"].JObject?))
    && ("company" in m ==> m["company"].JObject?)
  }

  /** On a user dict whose nested values are dicts the validator never
      raises: it returns True exactly on the accepted documents. */
  lemma UserSchemaOnObjects(m: map<string, Json>)
    requires NestedAreObjects(m)
    ensures ValidateUserSchema(JObject(m)) == Returns(IsUser(JObject(m)))
  {
    var user := JObject(m);
    if AllPresent(user, UserFields) {
      assert "address" in UserFields && "company" in UserFields;
      assert "geo" in AddressFields;
    }
  }

  /** A present `address` that is None, a bool or a number makes the
      validator raise TypeError instead of returning False. */
  lemma UserSchemaRaisesOnScalarAddress(m: map<string, Json>)
    requires AllPresent(JObject(m), UserFields)
    requires "address" in m && !IsContainer(m["address"])
    ensures ValidateUserSchema(JObject(m)) == Raises(TypeError)
  {
  }

  /** So does a scalar `company` once the address checks have passed. */
  lemma UserSchemaRaisesOnScalarCompany(m: map<string, Json>)
    requires AllPresent(JObject(m), UserFields)
    requires "address" in m && IsAddress(m["address"])
    requires "company" in m && !IsContainer(m["company"])
    ensures ValidateUserSchema(JObject(m)) == Raises(TypeError)
  {
    assert "address" in UserFields;
  }

  /** The result depends only on which required keys are present and on the
      values of `address` and `company`. */
  lemma UserSchemaReadsOnlyRequired(m: map<string, Json>, m': map<string, Json>)
    requires forall f | f in UserFields :: (f in m <==> f in m')
    requires "address" in m && "address" in m' ==> m["address"] == m'["address"]
    requires "company" in m && "company" in m' ==> m["company"] == m'["company"]
    ensures ValidateUserSchema(JObject(m)) == ValidateUserSchema(JObject(m'))
  {
    assert ValidateResponseSchema(JObject(m), UserFields) == ValidateResponseSchema(JObject(m'), UserFields) by {
      ResponseSchemaOnObject(m, UserFields);
      ResponseSchemaOnObject(m', UserFields);
    }
    assert "address" in UserFields && "company" in UserFields;
  }

  /** Keys outside the required list leave the result unchanged. */
  lemma UserSchemaIgnoresExtraKeys(m: map<string, Json>, extra: map<string, Json>)
    requires forall f | f in UserFields :: f !in extra
    ensures ValidateUserSchema(JObject(m + extra)) == ValidateUserSchema(JObject(m))
  {
    assert "address" in UserFields && "company" in UserFields;
    UserSchemaReadsOnlyRequired(m + extra, m);
  }

  /** No value type is checked: replacing the value of `id`, `name`,
      `username`, `email`, `phone` or `website` by any JSON value, such as an
      email without '@', leaves the result unchanged. */
  lemma UserSchemaIgnoresValues(m: map<string, Json>, key: string, v: Json)
    requires key in UserFields && key != "address" && key != "company"
    requires key in m
    ensures ValidateUserSchema(JObject(m[key := v])) == ValidateUserSchema(JObject(m))
  {
    UserSchemaReadsOnlyRequired(m[key := v], m);
  }

  /** A `geo` that is None, a bool or a number raises TypeError once the
      address keys are present. */
  lemma UserSchemaRaisesOnScalarGeo(m: map<string, Json>, a: map<string, Json>)
    requires AllPresent(JObject(m), UserFields)
    requires "address" in m && m["address"] == JObject(a)
    requires AllPresent(JObject(a), AddressFields)
    requires "geo" in a && !IsContainer(a["geo"])
    ensures ValidateUserSchema(JObject(m)) == Raises(TypeError)
  {
    assert "address" in UserFields && "company" in UserFields;
  }

  /** A list or str `address` holding the five names passes line 138 and
      then raises TypeError when line 144 subscripts it with 'geo'. */
  lemma UserSchemaRaisesOnListAddress(m: map<string, Json>)
    requires AllPresent(JObject(m), UserFields)
    requires "address" in m && (m["address"].JArray? || m["address"].JString?)
    requires AllPresent(m["address"], AddressFields)
    ensures ValidateUserSchema(JObject(m)) == Raises(TypeError)
  {
    assert "address" in UserFields && "company" in UserFields;
  }

  /** Keys outside `address_fields` in the `address` dict leave the result
      unchanged. */
  lemma UserSchemaIgnoresExtraAddressKeys(m: map<string, Json>, a: map<string, Json>, extra: map<string, Json>)
    requires "address" in m && m["address"] == JObject(a)
    requires forall f | f in AddressFields :: f !in extra
    ensures ValidateUserSchema(JObject(m["address" := JObject(a + extra)])) == ValidateUserSchema(JObject(m))
  {
    var m' := m["address" := JObject(a + extra)];
    assert "address" in UserFields && "company" in UserFields && "geo" in AddressFields;
    ResponseSchemaOnObject(m, UserFields);
    ResponseSchemaOnObject(m', UserFields);
    ResponseSchemaIgnoresExtraKeys(a, extra, AddressFields);
    assert CheckAddress(JObject(m')) == CheckAddress(JObject(m));
  }

  /** Keys outside `geo_fields` in the `geo` dict leave the result
      unchanged. */
  lemma UserSchemaIgnoresExtraGeoKeys(m: map<string, Json>, a: map<string, Json>, g: map<string, Json>,
                                      extra: map<string, Json>)
    requires "address" in m && m["address"] == JObject(a)
    requires "geo" in a && a["geo"] == JObject(g)
    requires forall f | f in GeoFields :: f !in extra
    ensures ValidateUserSchema(JObject(m["address" := JObject(a["geo" := JObject(g + extra)])]))
         == ValidateUserSchema(JObject(m))
  {
    var a' := a["geo" := JObject(g + extra)];
    var m' := m["address" := JObject(a')];
    assert "address" in UserFields && "company" in UserFields && "geo" in AddressFields;
    ResponseSchemaOnObject(m, UserFields);
    ResponseSchemaOnObject(m', UserFields);
    ResponseSchemaOnObject(a, AddressFields);
    ResponseSchemaOnObject(a', AddressFields);
    ResponseSchemaIgnoresExtraKeys(g, extra, GeoFields);
    assert CheckAddress(JObject(m')) == CheckAddress(JObject(m));
  }

  /** Keys outside `company_fields` in the `company` dict leave the result
      unchanged. */
  lemma UserSchemaIgnoresExtraCompanyKeys(m: map<string, Json>, c: map<string, Json>, extra: map<string, Json>)
    requires "company" in m && m["company"] == JObject(c)
    requires forall f | f in CompanyFields :: f !in extra
    ensures ValidateUserSchema(JObject(m["company" := JObject(c + extra)])) == ValidateUserSchema(JObject(m))
  {
    var m' := m["company" := JObject(c + extra)];
    assert "address" in UserFields && "company" in UserFields;
    ResponseSchemaOnObject(m, UserFields);
    ResponseSchemaOnObject(m', UserFields);
    ResponseSchemaIgnoresExtraKeys(c, extra, CompanyFields);
    assert CheckAddress(JObject(m')) == CheckAddress(JObject(m));
  }
}
