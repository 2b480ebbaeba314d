/** The server's formConfig as an instance of the validator: its shape, what
    it demands of a candidate, and the behaviour on a few concrete records. */
module ConfigFacts {
  import opened Js
  import opened Types
  import opened Validation
  import opened FormModal
  import opened Server

  /** Five fields with distinct names, all required; landingUrl carries the
      URL pattern, the three text fields carry their maximum lengths, and the
      price has neither. */
  lemma ServerFormConfigShape()
    ensures var fs := ServerFormConfig.fields;
      && |fs| == 5 && UniqueNames(fs)
      && (forall i :: 0 <= i < |fs| ==> fs[i].required)
      && fs[0].name == Title && fs[0].maxLength == Some(50) && fs[0].pattern.None?
      && fs[1].name == Publisher && fs[1].maxLength == Some(20) && fs[1].pattern.None?
      && fs[2].name == Content && fs[2].maxLength == Some(500) && fs[2].pattern.None?
      && fs[2].fieldType == "textarea"
      && fs[3].name == LandingUrl && fs[3].maxLength.None? && fs[3].pattern == Some("https?://.*")
      && fs[4].name == Price && fs[4].maxLength.None? && fs[4].pattern.None?
  {
  }

  /** A candidate passes the server's configuration exactly when title,
      publisher, content, landingUrl and price are all truthy, the three texts
      are within 50, 20 and 500 UTF-16 code units, and the landing URL matches
      `https?://.*`. */
  lemma {:induction false} ServerConfigValidIff(rt: Runtime, data: Record)
    ensures Errors(rt, ServerFormConfig.fields, data) == map[] <==>
      && Truthy(Get(data, Title)) && JsLength(ToText(rt, Get(data, Title))) <= 50
      && Truthy(Get(data, Publisher)) && JsLength(ToText(rt, Get(data, Publisher))) <= 20
      && Truthy(Get(data, Content)) && JsLength(ToText(rt, Get(data, Content))) <= 500
      && Truthy(Get(data, LandingUrl)) && rt.matches("https?://.*", ToText(rt, Get(data, LandingUrl)))
      && Truthy(Get(data, Price))
  {
    var fs := ServerFormConfig.fields;
    ValidIffNoCheckFails(rt, fs, data);
    ServerFormConfigShape();
    TextFieldPasses(rt, fs[0], data);
    TextFieldPasses(rt, fs[1], data);
    TextFieldPasses(rt, fs[2], data);
    PatternFieldPasses(rt, fs[3], data);
    PlainFieldPasses(rt, fs[4], data);
    assert (forall i :: 0 <= i < |fs| ==> FieldMessage(rt, fs[i], data).None?) <==>
      && FieldMessage(rt, fs[0], data).None? && FieldMessage(rt, fs[1], data).None?
      && FieldMessage(rt, fs[2], data).None? && FieldMessage(rt, fs[3], data).None?
      && FieldMessage(rt, fs[4], data).None?;
  }

  /** A required field with a pattern and no maximum length passes exactly
      when its value is truthy and matches. */
  lemma PatternFieldPasses(rt: Runtime, f: FormField, data: Record)
    requires f.required && f.pattern.Some? && f.pattern.value != "" && f.maxLength.None?
    ensures FieldMessage(rt, f, data).None? <==>
      Truthy(Get(data, f.name)) && rt.matches(f.pattern.value, ToText(rt, Get(data, f.name)))
  {
  }

  /** A required field with neither a pattern nor a maximum length passes
      exactly when its value is truthy. */
  lemma PlainFieldPasses(rt: Runtime, f: FormField, data: Record)
    requires f.required && f.pattern.None? && f.maxLength.None?
    ensures FieldMessage(rt, f, data).None? <==> Truthy(Get(data, f.name))
  {
  }

  /** A required text field without a pattern and with a positive maximum
      length passes exactly when its value is truthy and short enough. */
  lemma TextFieldPasses(rt: Runtime, f: FormField, data: Record)
    requires f.required && f.pattern.None? && f.maxLength.Some? && f.maxLength.value > 0
    ensures FieldMessage(rt, f, data).None? <==>
      Truthy(Get(data, f.name)) && JsLength(ToText(rt, Get(data, f.name))) <= f.maxLength.value
  {
  }

  /** Submitting the empty form gives every field its required message. */
  lemma EmptyFormNamesEveryField(rt: Runtime)
    ensures Errors(rt, ServerFormConfig.fields, InitialFormData) == map[
      Title := "广告标题不能为空", Publisher := "发布人不能为空", Content := "内容文案不能为空",
      LandingUrl := "落地页不能为空", Price := "出价不能为空"]
  {
    var e := Errors(rt, ServerFormConfig.fields, InitialFormData);
    EmptyFieldEntry(rt, 0);
    EmptyFieldEntry(rt, 1);
    EmptyFieldEntry(rt, 2);
    EmptyFieldEntry(rt, 3);
    EmptyFieldEntry(rt, 4);
    NoEntryOutsideConfig(rt, InitialFormData);
    ServerRequiredMessages();
    FiveEntries(e, "广告标题不能为空", "发布人不能为空", "内容文案不能为空", "落地页不能为空", "出价不能为空");
  }

  /** A map with exactly the five attribute entries, whatever their messages. */
  lemma FiveEntries(e: map<Key, string>, title: string, publisher: string, content: string, url: string, price: string)
    requires Title in e && e[Title] == title && Publisher in e && e[Publisher] == publisher
    requires Content in e && e[Content] == content && LandingUrl in e && e[LandingUrl] == url
    requires Price in e && e[Price] == price && Id !in e && Clicked !in e
    ensures e == map[Title := title, Publisher := publisher, Content := content, LandingUrl := url, Price := price]
  {
    var expected := map[Title := title, Publisher := publisher, Content := content, LandingUrl := url, Price := price];
    forall k ensures k in e <==> k in expected {
      match k
      case Id =>
      case Clicked =>
      case Title =>
      case Publisher =>
      case Content =>
      case LandingUrl =>
      case Price =>
    }
    assert e.Keys == expected.Keys;
  }

  /** No record gets an error under `id` or `clicked` from the server's configuration. */
  lemma NoEntryOutsideConfig(rt: Runtime, data: Record)
    ensures Id !in Errors(rt, ServerFormConfig.fields, data)
    ensures Clicked !in Errors(rt, ServerFormConfig.fields, data)
  {
    ServerFormConfigShape();
    ErrorsDomain(rt, ServerFormConfig.fields, data, Id);
    ErrorsDomain(rt, ServerFormConfig.fields, data, Clicked);
  }

  /** The required messages of the five configured fields. */
  lemma ServerRequiredMessages()
    ensures var fs := ServerFormConfig.fields;
      && fs[0].name == Title && RequiredMessage(fs[0].labelText) == "广告标题不能为空"
      && fs[1].name == Publisher && RequiredMessage(fs[1].labelText) == "发布人不能为空"
      && fs[2].name == Content && RequiredMessage(fs[2].labelText) == "内容文案不能为空"
      && fs[3].name == LandingUrl && RequiredMessage(fs[3].labelText) == "落地页不能为空"
      && fs[4].name == Price && RequiredMessage(fs[4].labelText) == "出价不能为空"
  {
  }

  /** On the empty form, field `i` of the server's configuration has exactly
      its required message. */
  lemma EmptyFieldEntry(rt: Runtime, i: nat)
    requires i < |ServerFormConfig.fields|
    ensures var f := ServerFormConfig.fields[i];
      var e := Errors(rt, ServerFormConfig.fields, InitialFormData);
      f.name in e && e[f.name] == RequiredMessage(f.labelText)
  {
    ServerFormConfigShape();
    RequiredMessageIsKept(rt, ServerFormConfig.fields[i], InitialFormData);
    UniqueFieldEntry(rt, ServerFormConfig.fields, InitialFormData, i);
  }

  /** The maximum-length message of the title field. */
  lemma TitleTooLongMessage()
    ensures MaxLengthMessage("广告标题", 50) == "广告标题不能超过50个字符"
  {
  }

  /** A title of 26 emoji is 52 UTF-16 code units long, so it exceeds the 50
      allowed and gets the maximum-length message. */
  lemma EmojiTitleTooLong(rt: Runtime)
    ensures var title := seq(26, _ => '\U{1F600}');
      FieldMessage(rt, ServerFormConfig.fields[0], map[Title := Str(title)]) == Some("广告标题不能超过50个字符")
  {
    var title := seq(26, _ => '\U{1F600}');
    assert JsLength(title) == 52;
    assert ToText(rt, Str(title)) == title;
    assert MaxLengthFails(rt, ServerFormConfig.fields[0], Str(title));
    TitleTooLongMessage();
  }

  /** An unanchored search for `https?://.*`: "http://" or "https://" occurs
      somewhere in the text. */
  predicate HasHttpScheme(s: string)
  {
    exists i :: 0 <= i <= |s| && (IsPrefix("http://", s[i..]) || IsPrefix("https://", s[i..]))
  }

  predicate IsPrefix(p: string, s: string)
  {
    |p| <= |s| && s[..|p|] == p
  }

  /** A runtime whose regular-expression test agrees with the search above on
      the landing-URL pattern. */
  ghost predicate SearchesUrls(rt: Runtime)
  {
    forall s :: rt.matches("https?://.*", s) == HasHttpScheme(s)
  }

  /** The one-field example: a required title that is empty gets exactly the
      required message. */
  lemma RequiredTitleExample(rt: Runtime)
    ensures var f := FormField(Title, "标题", "text", true, None, None, None, None, None, None);
      Errors(rt, [f], map[Title := Str("")]) == map[Title := "标题不能为空"]
  {
    var f := FormField(Title, "标题", "text", true, None, None, None, None, None, None);
    var data := map[Title := Str("")];
    assert [f][..0] == [];
    assert Errors(rt, [f][..0], data) == map[];
    assert Get(data, Title) == Str("");
    assert RequiredFails(f, Str(""));
    assert FieldMessage(rt, f, data) == Some(RequiredMessage("标题"));
    assert RequiredMessage("标题") == "标题不能为空";
  }

  /** "ftp://x" fails the landing-URL pattern, "https://x" passes it. */
  lemma LandingUrlExamples(rt: Runtime)
    requires SearchesUrls(rt)
    ensures FieldMessage(rt, ServerFormConfig.fields[3], map[LandingUrl := Str("ftp://x")])
         == Some("请输入有效的落地页")
    ensures FieldMessage(rt, ServerFormConfig.fields[3], map[LandingUrl := Str("https://x")]).None?
  {
    var bad := "ftp://x";
    forall i | 0 <= i <= |bad| ensures !IsPrefix("http://", bad[i..]) && !IsPrefix("https://", bad[i..]) {
      if i == 0 {
        assert bad[0] == 'f';
      }
    }
    assert !HasHttpScheme(bad);
    assert !rt.matches("https?://.*", bad);
    assert ToText(rt, Str(bad)) == bad;
    assert PatternFails(rt, ServerFormConfig.fields[3], Str(bad));
    assert PatternMessage("落地页") == "请输入有效的落地页";
    var good := "https://x";
    assert good[0..] == good && IsPrefix("https://", good[0..]);
    assert HasHttpScheme(good);
  }
}
