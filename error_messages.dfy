/** The messages the client's errors carry once raised, and what
    `handle_error_response` raises for each kind of response. */
module ErrorMessages {
  import opened Wrappers
  import opened Text
  import opened Json
  import opened Exceptions

  // The exceptions the resource loaders and the extension factory raise; each
  // lemma below shows that raising the class with these keyword arguments gives
  // exactly this exception, and what its message reads.

  function InvalidInput(error: string): Failure
  {
    Raised(InvalidInputError, map["error" := error], None, None)
  }

  function MissingAttribute(attribute: string, resource: string): Failure
  {
    Raised(MissingAttributeError, Kwargs([("attribute", attribute), ("resource", resource)]), None, None)
  }

  function MalformedAttribute(attribute: string, resource: string, error: string): Failure
  {
    Raised(MalformedAttributeError, Kwargs([("attribute", attribute), ("resource", resource), ("error", error)]), None, None)
  }

  function ExtensionNotFound(vendor: string, model: string, version: string): Failure
  {
    Raised(ExtensionNotFoundError, Kwargs([("vendor", vendor), ("model", model), ("version", version)]), None, None)
  }

  lemma InvalidInputMessage(error: string)
    ensures Raise(InvalidInputError, map["error" := error]) == InvalidInput(error)
    ensures Describe(InvalidInput(error)) == "Invalid input: " + error
  {
    var kw := map["error" := error];
    assert Interpolate(InvalidInputTemplate, kw) == Ok("Invalid input: " + error) by {
      var p1: Pattern := Conversion("error", End);
      assert error + "" == error;
      assert Interpolate(p1, kw) == Ok(error);
      var p0: Pattern := Literal("Invalid input: ", p1);
      assert Interpolate(p0, kw) == Ok("Invalid input: " + error);
      assert p0 == InvalidInputTemplate;
    }
    TemplateFilled(InvalidInputError, kw, "Invalid input: " + error);
  }

  lemma MissingAttributeText(kw: map<string, string>)
    requires "attribute" in kw && "resource" in kw
    ensures Interpolate(MissingAttributeTemplate, kw)
         == Ok("The attribute " + kw["attribute"] + " is missing from the resource " + kw["resource"])
  {
    var p5: Pattern := Conversion("resource", End);
    ConversionStep("resource", End, kw, "");
    var r5 := kw["resource"] + "";
    var p4: Pattern := Literal("resource ", p5);
    LiteralStep("resource ", p5, kw, r5);
    var p3: Pattern := Literal("from the ", p4);
    LiteralStep("from the ", p4, kw, "resource " + r5);
    var p2: Pattern := Literal(" is missing ", p3);
    LiteralStep(" is missing ", p3, kw, "from the " + ("resource " + r5));
    var r2 := " is missing " + ("from the " + ("resource " + r5));
    var p1: Pattern := Conversion("attribute", p2);
    ConversionStep("attribute", p2, kw, r2);
    LiteralStep("The attribute ", p1, kw, kw["attribute"] + r2);
    assert "The attribute " + (kw["attribute"] + r2)
        == "The attribute " + kw["attribute"] + " is missing from the resource " + kw["resource"];
  }

  lemma MissingKwargs(attribute: string, resource: string)
    ensures var kw := Kwargs([("attribute", attribute), ("resource", resource)]);
      && kw != map[] && "attribute" in kw && "resource" in kw
      && kw["attribute"] == attribute && kw["resource"] == resource
  {
    var args := [("attribute", attribute), ("resource", resource)];
    KwargsAppend([], "attribute", attribute);
    KwargsAppend(args[..1], "resource", resource);
    assert args == args[..1] + [("resource", resource)] && args[..1] == [] + [("attribute", attribute)];
    var none: map<string, string> := map[];
    assert "attribute" in Kwargs(args) && "attribute" !in none;
  }

  lemma MissingAttributeMessage(attribute: string, resource: string)
    ensures Raise(MissingAttributeError, Kwargs([("attribute", attribute), ("resource", resource)]))
         == MissingAttribute(attribute, resource)
    ensures Describe(MissingAttribute(attribute, resource))
         == "The attribute " + attribute + " is missing from the resource " + resource
  {
    var kw := Kwargs([("attribute", attribute), ("resource", resource)]);
    MissingKwargs(attribute, resource);
    MissingAttributeText(kw);
    TemplateFilled(MissingAttributeError, kw, "The attribute " + attribute + " is missing from the resource " + resource);
  }

  lemma MalformedAttributeText(kw: map<string, string>)
    requires "attribute" in kw && "resource" in kw && "error" in kw
    ensures Interpolate(MalformedAttributeTemplate, kw)
         == Ok("The attribute " + kw["attribute"] + " is malformed in the resource " + kw["resource"] + ": " + kw["error"])
  {
    var p7: Pattern := Conversion("error", End);
    ConversionStep("error", End, kw, "");
    var r7 := kw["error"] + "";
    var p6: Pattern := Literal(": ", p7);
    LiteralStep(": ", p7, kw, r7);
    var p5: Pattern := Conversion("resource", p6);
    ConversionStep("resource", p6, kw, ": " + r7);
    var r5 := kw["resource"] + (": " + r7);
    var p4: Pattern := Literal("resource ", p5);
    LiteralStep("resource ", p5, kw, r5);
    var p3: Pattern := Literal("in the ", p4);
    LiteralStep("in the ", p4, kw, "resource " + r5);
    var p2: Pattern := Literal(" is malformed ", p3);
    LiteralStep(" is malformed ", p3, kw, "in the " + ("resource " + r5));
    var r2 := " is malformed " + ("in the " + ("resource " + r5));
    var p1: Pattern := Conversion("attribute", p2);
    ConversionStep("attribute", p2, kw, r2);
    LiteralStep("The attribute ", p1, kw, kw["attribute"] + r2);
    assert "The attribute " + (kw["attribute"] + r2)
        == "The attribute " + kw["attribute"] + " is malformed in the resource " + kw["resource"] + ": " + kw["error"];
  }

  lemma MalformedKwargs(attribute: string, resource: string, error: string)
    ensures var kw := Kwargs([("attribute", attribute), ("resource", resource), ("error", error)]);
      && kw != map[] && "attribute" in kw && "resource" in kw && "error" in kw
      && kw["attribute"] == attribute && kw["resource"] == resource && kw["error"] == error
  {
    var args := [("attribute", attribute), ("resource", resource), ("error", error)];
    KwargsAppend([], "attribute", attribute);
    KwargsAppend(args[..1], "resource", resource);
    KwargsAppend(args[..2], "error", error);
    assert args == args[..2] + [("error", error)] && args[..2] == args[..1] + [("resource", resource)];
    assert args[..1] == [] + [("attribute", attribute)];
    var none: map<string, string> := map[];
    assert "attribute" in Kwargs(args) && "attribute" !in none;
  }

  lemma MalformedAttributeMessage(attribute: string, resource: string, error: string)
    ensures Raise(MalformedAttributeError, Kwargs([("attribute", attribute), ("resource", resource), ("error", error)]))
         == MalformedAttribute(attribute, resource, error)
    ensures Describe(MalformedAttribute(attribute, resource, error))
         == "The attribute " + attribute + " is malformed in the resource " + resource + ": " + error
  {
    var kw := Kwargs([("attribute", attribute), ("resource", resource), ("error", error)]);
    MalformedKwargs(attribute, resource, error);
    MalformedAttributeText(kw);
    TemplateFilled(MalformedAttributeError, kw,
      "The attribute " + attribute + " is malformed in the resource " + resource + ": " + error);
  }

  lemma ExtensionNotFoundText(kw: map<string, string>)
    requires "vendor" in kw && "model" in kw && "version" in kw
    ensures Interpolate(ExtensionNotFoundTemplate, kw)
         == Ok("Cannot find CLI extension for " + kw["vendor"] + ", " + kw["model"] + ", " + kw["version"])
  {
    var p7: Pattern := Conversion("version", End);
    ConversionStep("version", End, kw, "");
    var r7 := kw["version"] + "";
    var p6: Pattern := Literal(", ", p7);
    LiteralStep(", ", p7, kw, r7);
    var p5: Pattern := Conversion("model", p6);
    ConversionStep("model", p6, kw, ", " + r7);
    var r5 := kw["model"] + (", " + r7);
    var p4: Pattern := Literal(", ", p5);
    LiteralStep(", ", p5, kw, r5);
    var p3: Pattern := Conversion("vendor", p4);
    ConversionStep("vendor", p4, kw, ", " + r5);
    var r3 := kw["vendor"] + (", " + r5);
    var p2: Pattern := Literal("for ", p3);
    LiteralStep("for ", p3, kw, r3);
    var p1: Pattern := Literal("CLI extension ", p2);
    LiteralStep("CLI extension ", p2, kw, "for " + r3);
    LiteralStep("Cannot find ", p1, kw, "CLI extension " + ("for " + r3));
    assert "Cannot find " + ("CLI extension " + ("for " + r3))
        == "Cannot find CLI extension for " + kw["vendor"] + ", " + kw["model"] + ", " + kw["version"];
  }

  lemma ExtensionKwargs(vendor: string, model: string, version: string)
    ensures var kw := Kwargs([("vendor", vendor), ("model", model), ("version", version)]);
      && kw != map[] && "vendor" in kw && "model" in kw && "version" in kw
      && kw["vendor"] == vendor && kw["model"] == model && kw["version"] == version
  {
    var args := [("vendor", vendor), ("model", model), ("version", version)];
    KwargsAppend([], "vendor", vendor);
    KwargsAppend(args[..1], "model", model);
    KwargsAppend(args[..2], "version", version);
    assert args == args[..2] + [("version", version)] && args[..2] == args[..1] + [("model", model)];
    assert args[..1] == [] + [("vendor", vendor)];
    var none: map<string, string> := map[];
    assert "vendor" in Kwargs(args) && "vendor" !in none;
  }

  lemma ExtensionNotFoundMessage(vendor: string, model: string, version: string)
    ensures Raise(ExtensionNotFoundError, Kwargs([("vendor", vendor), ("model", model), ("version", version)]))
         == ExtensionNotFound(vendor, model, version)
    ensures Describe(ExtensionNotFound(vendor, model, version))
         == "Cannot find CLI extension for " + vendor + ", " + model + ", " + version
  {
    var kw := Kwargs([("vendor", vendor), ("model", model), ("version", version)]);
    ExtensionKwargs(vendor, model, version);
    ExtensionNotFoundText(kw);
    TemplateFilled(ExtensionNotFoundError, kw, "Cannot find CLI extension for " + vendor + ", " + model + ", " + version);
  }

  lemma HttpMessage(cls: ErrorClass, kwargs: map<string, string>)
    requires cls in {HTTPError, BadRequestError, ServerSideError, AccessError}
    requires "method" in kwargs && "url" in kwargs && "code" in kwargs && "error" in kwargs
    ensures InitMessage(MessagePattern(cls), kwargs)
         == Ok(Some("HTTP " + kwargs["method"] + " " + kwargs["url"] + " returned code "
                    + kwargs["code"] + ". " + kwargs["error"]))
  {
    assert MessagePattern(cls) == Some(HttpTemplate);
    assert Interpolate(HttpTemplate, kwargs) == Ok("HTTP " + kwargs["method"] + " " + kwargs["url"] + " returned code " + kwargs["code"] + ". " + kwargs["error"]) by {
      var p7: Pattern := Conversion("error", End);
      assert kwargs["error"] + "" == kwargs["error"];
      assert Interpolate(p7, kwargs) == Ok(kwargs["error"]);
      var p6: Pattern := Literal(". ", p7);
      assert Interpolate(p6, kwargs) == Ok(". " + kwargs["error"]);
      var p5: Pattern := Conversion("code", p6);
      assert Interpolate(p5, kwargs) == Ok(kwargs["code"] + (". " + kwargs["error"]));
      var p4: Pattern := Literal(" returned code ", p5);
      assert Interpolate(p4, kwargs) == Ok(" returned code " + (kwargs["code"] + (". " + kwargs["error"])));
      var p3: Pattern := Conversion("url", p4);
      assert Interpolate(p3, kwargs) == Ok(kwargs["url"] + (" returned code " + (kwargs["code"] + (". " + kwargs["error"]))));
      var p2: Pattern := Literal(" ", p3);
      assert Interpolate(p2, kwargs) == Ok(" " + (kwargs["url"] + (" returned code " + (kwargs["code"] + (". " + kwargs["error"])))));
      var p1: Pattern := Conversion("method", p2);
      assert Interpolate(p1, kwargs) == Ok(kwargs["method"] + (" " + (kwargs["url"] + (" returned code " + (kwargs["code"] + (". " + kwargs["error"]))))));
      var p0: Pattern := Literal("HTTP ", p1);
      assert Interpolate(p0, kwargs) == Ok("HTTP " + (kwargs["method"] + (" " + (kwargs["url"] + (" returned code " + (kwargs["code"] + (". " + kwargs["error"])))))));
      assert "HTTP " + (kwargs["method"] + (" " + (kwargs["url"] + (" returned code " + (kwargs["code"] + (". " + kwargs["error"])))))) == "HTTP " + kwargs["method"] + " " + kwargs["url"] + " returned code " + kwargs["code"] + ". " + kwargs["error"];
      assert p0 == HttpTemplate;
    }
    TemplateFilled(cls, kwargs, "HTTP " + kwargs["method"] + " " + kwargs["url"] + " returned code " + kwargs["code"] + ". " + kwargs["error"]);
  }

  lemma NotFoundMessage(kwargs: map<string, string>)
    requires "url" in kwargs
    ensures InitMessage(MessagePattern(ResourceNotFoundError), kwargs) == Ok(Some("Resource " + kwargs["url"] + " not found"))
  {
    assert Interpolate(ResourceNotFoundTemplate, kwargs) == Ok("Resource " + kwargs["url"] + " not found") by {
      var p2: Pattern := Literal(" not found", End);
      assert " not found" + "" == " not found";
      assert Interpolate(p2, kwargs) == Ok(" not found");
      var p1: Pattern := Conversion("url", p2);
      assert Interpolate(p1, kwargs) == Ok(kwargs["url"] + " not found");
      var p0: Pattern := Literal("Resource ", p1);
      assert Interpolate(p0, kwargs) == Ok("Resource " + (kwargs["url"] + " not found"));
      assert "Resource " + (kwargs["url"] + " not found") == "Resource " + kwargs["url"] + " not found";
      assert p0 == ResourceNotFoundTemplate;
    }
    TemplateFilled(ResourceNotFoundError, kwargs, "Resource " + kwargs["url"] + " not found");
  }

  /** The message every HTTP error class builds from its keyword arguments. */
  lemma HttpErrorMessage(cls: ErrorClass, verb: string, url: string, code: int, error: string)
    requires cls in {HTTPError, BadRequestError, ServerSideError, AccessError, ResourceNotFoundError}
    ensures InitMessage(MessagePattern(cls), HttpKwargs(verb, url, code, error))
         == Ok(Some(if cls == ResourceNotFoundError then "Resource " + url + " not found"
                    else "HTTP " + verb + " " + url + " returned code " + IntToString(code) + ". " + error))
  {
    var kwargs := HttpKwargs(verb, url, code, error);
    assert "method" in kwargs && "url" in kwargs && "code" in kwargs && "error" in kwargs;
    if cls == ResourceNotFoundError {
      NotFoundMessage(kwargs);
    } else {
      HttpMessage(cls, kwargs);
    }
  }

  /** Every status code of 400 or above raises an instance of the class `Classify`
      picks, recording the status code; a JSON body gives `body` its `error`
      entry (or `{}`), no JSON body leaves `body` None and the error text
      'unknown error'; a JSON body that is not an object makes `.get` fail; the
      message is the class's filled-in template. */
  lemma HandleErrorResponseRaises(verb: string, url: string, response: Response)
    ensures HandleErrorResponse(verb, url, response).None? <==> response.statusCode < 400
    ensures response.statusCode >= 400 && response.json.Some? && !response.json.value.JObj? ==>
      HandleErrorResponse(verb, url, response) == Some(AttributeFault(response.json.value, "get"))
    ensures response.statusCode >= 400 && (response.json.None? || response.json.value.JObj?) ==>
      var f := HandleErrorResponse(verb, url, response).value;
      && f.Raised?
      && f.cls == Classify(response.statusCode).value
      && IsA(f.cls, HTTPError)
      && f.statusCode == Some(response.statusCode)
      && f.kwargs == HttpKwargs(verb, url, response.statusCode, ErrorText(response.json))
      && (response.json.None? ==> f.body.None? && ErrorText(response.json) == "unknown error")
      && (response.json.Some? ==> f.body == Some(GetOr(response.json.value.members, "error", JObj([]))))
      && (f.cls == ResourceNotFoundError ==> Message(f.cls, f.kwargs) == Some("Resource " + url + " not found"))
      && (f.cls != ResourceNotFoundError ==>
            Message(f.cls, f.kwargs) == Some("HTTP " + verb + " " + url + " returned code "
                              + IntToString(response.statusCode) + ". " + ErrorText(response.json)))
  {
    var code := response.statusCode;
    if code >= 400 && (response.json.None? || response.json.value.JObj?) {
      HttpErrorMessage(Classify(code).value, verb, url, code, ErrorText(response.json));
    }
  }
}
