/**
 * The social-icon request schemas (shared/schemas/icon-schema.ts): an http(s) URL and a
 * platform among the keys of the icon table, with the platform's logo added; on update an
 * optional non-negative integer order and an optional visibility flag.
 */
module IconSchema {
  import opened Wrappers
  import opened Json
  import opened Zod

  /** The output of `createUserIconSchema`. */
  datatype IconInput = IconInput(url: string, platform: string, logo: string)

  /** The output of `updateUserIconSchema`. */
  datatype IconUpdate = IconUpdate(order: Option<int>, isVisible: Option<bool>)

  /** The message of a failed `z.enum`; the list of options it goes on to name is not part
      of this model. */
  const InvalidOption := "Invalid option"
  const OrderInteger := "Order must be an integer"
  const OrderNonNegative := "Order must be non-negative"

  /** The `platform` rule: `z.enum(Object.keys(SOCIAL_ICONS))`. */
  function Platform(v: Option<Json>, socialIcons: map<string, string>): (r: Result<string, string>)
    ensures r.Ok? <==> RawString(v).Some? && RawString(v).value in socialIcons
    ensures r.Ok? ==> r.value == RawString(v).value
    ensures r.Err? ==> r.error == InvalidOption
  {
    match RawString(v)
    case Some(p) => if p in socialIcons then Ok(p) else Err(InvalidOption)
    case None => Err(InvalidOption)
  }

  /** `createUserIconSchema.safeParse(body)`: url, then platform, then the logo of the
      platform added by the transform. */
  function ParseCreateIcon(body: Json, isUrl: string -> bool, socialIcons: map<string, string>): (r: Result<IconInput, string>)
    ensures !body.JObj? ==> r.Err?
    ensures r.Ok? <==> (body.JObj? && HttpUrl(Field(body, "url"), isUrl).Ok?
      && Platform(Field(body, "platform"), socialIcons).Ok?)
    ensures r.Ok? ==> (r.value.url == RawString(Field(body, "url")).value
      && r.value.platform == RawString(Field(body, "platform")).value
      && r.value.platform in socialIcons && r.value.logo == socialIcons[r.value.platform]
      && HttpScheme(r.value.url))
    ensures body.JObj? && HttpUrl(Field(body, "url"), isUrl).Err? ==> r == Err(HttpUrl(Field(body, "url"), isUrl).error)
  {
    var fields :- ObjectBody(body);
    var url :- HttpUrl(Field(body, "url"), isUrl);
    var platform :- Platform(Field(body, "platform"), socialIcons);
    Ok(IconInput(url, platform, socialIcons[platform]))
  }

  /** `updateUserIconSchema.safeParse(body)`: order, then isVisible, both optional. */
  function ParseUpdateIcon(body: Json): (r: Result<IconUpdate, string>)
    ensures !body.JObj? ==> r.Err?
    ensures r.Ok? ==> ((r.value.order.Some? <==> Field(body, "order").Some?)
      && (r.value.isVisible.Some? <==> Field(body, "isVisible").Some?))
    ensures r.Ok? && r.value.order.Some? ==>
      r.value.order.value >= 0 && Field(body, "order") == Some(JNum(r.value.order.value as real))
    ensures r.Ok? && r.value.isVisible.Some? ==> Field(body, "isVisible") == Some(JBool(r.value.isVisible.value))
    ensures body.JObj? && Field(body, "order").None? && Field(body, "isVisible").None? ==> r == Ok(IconUpdate(None, None))
  {
    var fields :- ObjectBody(body);
    var order :- if Field(body, "order").None? then Ok(None)
      else var n :- NonNegativeInt(Field(body, "order"), OrderInteger, OrderNonNegative); Ok(Some(n));
    var isVisible :- OptionalBool(Field(body, "isVisible"));
    Ok(IconUpdate(order, isVisible))
  }

  /** The request body a client sends to create an icon. */
  function IconBody(url: string, platform: string): Json {
    JObj(map["url" := JStr(url), "platform" := JStr(platform)])
  }

  /** Creating an icon for a known platform with an http(s) URL always succeeds, keeps the
      URL and platform as sent and derives the logo from the table. */
  lemma CreateIconDerivesLogo(url: string, platform: string, isUrl: string -> bool, socialIcons: map<string, string>)
    requires isUrl(url) && HttpScheme(url) && platform in socialIcons
    ensures ParseCreateIcon(IconBody(url, platform), isUrl, socialIcons)
      == Ok(IconInput(url, platform, socialIcons[platform]))
  {
    var body := IconBody(url, platform);
    assert Field(body, "url") == Some(JStr(url));
    assert Field(body, "platform") == Some(JStr(platform));
  }
}
