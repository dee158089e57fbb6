/**
 * The parts of the bundle's copy of Symfony's `AbstractController` that
 * decide something: `renderForm`'s parameter rewrite and 422 rule, `render`,
 * `redirect`'s default status and the guards of `getUser`.
 */
module ControllerBase {
  import opened PhpArray
  import opened Errors

  const HTTP_OK: int := 200
  const HTTP_FOUND: int := 302
  const HTTP_UNPROCESSABLE_ENTITY: int := 422

  /** A template parameter: a plain value, a form, or a form's view. */
  datatype Argument =
    | Plain(value: Value)
    | Form(submitted: bool, valid: bool, view: Value)
    | FormView(view: Value)

  datatype Parameter = Parameter(key: string, arg: Argument)

  /** The Twig environment's `render`, kept abstract. */
  type Renderer = (string, seq<Parameter>) -> string

  datatype Token = Token(user: Value)

  /** The services the controller looks up: `twig` and
      `security.token_storage` (whose `getToken` may give null), when registered. */
  datatype Services = Services(twig: Option<Renderer>, tokenStorage: Option<Option<Token>>)

  class Response {
    var status: int
    var content: string

    constructor()
      ensures status == HTTP_OK && content == ""
    {
      status := HTTP_OK;
      content := "";
    }

    method SetStatusCode(status: int)
      modifies this
      ensures this.status == status && content == old(content)
    {
      this.status := status;
    }

    method SetContent(content: string)
      modifies this
      ensures this.content == content && status == old(status)
    {
      this.content := content;
    }
  }

  datatype RedirectResponse = RedirectResponse(url: string, status: int)

  function Redirect(url: string, status: int := HTTP_FOUND): RedirectResponse {
    RedirectResponse(url, status)
  }

  /** A redirect without an explicit status is a 302 to the given URL. */
  lemma RedirectDefault(url: string)
    ensures Redirect(url) == RedirectResponse(url, HTTP_FOUND)
  {
  }

  // ---------------------------------------------------------------------------
  // renderForm

  /** The position of the first form view among the parameters, or their number. */
  function FirstFormView(params: seq<Parameter>): (n: nat)
    ensures n <= |params|
    ensures forall i :: 0 <= i < n ==> !params[i].arg.FormView?
    ensures n < |params| ==> params[n].arg.FormView?
    decreases |params|
  {
    if |params| == 0 then 0
    else if params[0].arg.FormView? then 0
    else 1 + FirstFormView(params[1..])
  }

  predicate InvalidSubmission(p: Parameter) {
    p.arg.Form? && p.arg.submitted && !p.arg.valid
  }

  /** The status after the loop has met the parameters in order. */
  function StatusAfter(status: int, params: seq<Parameter>): int
    decreases |params|
  {
    if |params| == 0 then status
    else
      var before := StatusAfter(status, params[..|params| - 1]);
      if before == HTTP_OK && InvalidSubmission(params[|params| - 1]) then HTTP_UNPROCESSABLE_ENTITY else before
  }

  /** 422 exactly when the status was 200 and a submitted, invalid form was
      met; any other status is kept. */
  lemma {:induction false} StatusRule(status: int, params: seq<Parameter>)
    ensures StatusAfter(status, params)
         == if status == HTTP_OK && exists i :: 0 <= i < |params| && InvalidSubmission(params[i])
            then HTTP_UNPROCESSABLE_ENTITY else status
    decreases |params|
  {
    if |params| > 0 {
      var init := params[..|params| - 1];
      StatusRule(status, init);
      if exists i :: 0 <= i < |init| && InvalidSubmission(init[i]) {
        var i :| 0 <= i < |init| && InvalidSubmission(init[i]);
        assert params[i] == init[i];
      }
      if exists i :: 0 <= i < |params| && InvalidSubmission(params[i]) {
        var i :| 0 <= i < |params| && InvalidSubmission(params[i]);
        if i < |init| {
          assert init[i] == params[i];
        }
      }
    }
  }

  /** A parameter as it is handed to the template: a form becomes its view. */
  function ViewOf(p: Parameter): Parameter {
    if p.arg.Form? then Parameter(p.key, FormView(p.arg.view)) else p
  }

  function Rendered(params: seq<Parameter>): (r: seq<Parameter>)
    ensures |r| == |params| && forall i :: 0 <= i < |params| ==> r[i] == ViewOf(params[i])
  {
    seq(|params|, i requires 0 <= i < |params| => ViewOf(params[i]))
  }

  /** The rewrite keeps every key and every non-form value, replaces each form
      by its view, and leaves no form behind. */
  lemma RenderedFacts(params: seq<Parameter>)
    ensures forall i :: 0 <= i < |params| ==> Rendered(params)[i].key == params[i].key
    ensures forall i :: 0 <= i < |params| ==> !Rendered(params)[i].arg.Form?
    ensures forall i :: 0 <= i < |params| && !params[i].arg.Form? ==> Rendered(params)[i] == params[i]
    ensures forall i :: 0 <= i < |params| && params[i].arg.Form? ==> Rendered(params)[i].arg == FormView(params[i].arg.view)
  {
  }

  /** `renderView`: fails without the Twig bundle. */
  function RenderView(services: Services, view: string, params: seq<Parameter>): Result<string> {
    match services.twig
    case None => Err(Logic(TwigUnavailable))
    case Some(twig) => Ok(twig(view, params))
  }

  /** `render`: the content is rendered first, then put into the given
      response or a new one. */
  method Render(services: Services, view: string, params: seq<Parameter>, response: Response?) returns (r: Result<Response>)
    modifies response
    ensures services.twig.None? ==> r == Err(Logic(TwigUnavailable)) && (response != null ==> unchanged(response))
    ensures services.twig.Some? ==>
      && r.Ok?
      && (if response == null then fresh(r.value) && r.value.status == HTTP_OK else r.value == response && response.status == old(response.status))
      && r.value.content == services.twig.value(view, params)
  {
    var content := RenderView(services, view, params);
    if content.Err? {
      return Err(content.error);
    }
    var target := response;
    if target == null {
      target := new Response();
    }
    target.SetContent(content.value);
    r := Ok(target);
  }

  method RenderForm(services: Services, view: string, params: seq<Parameter>, response: Response?) returns (r: Result<Response>)
    modifies response
    ensures var n := FirstFormView(params);
      var initial := if response == null then HTTP_OK else old(response.status);
      && (n < |params| ==> r == Err(Logic(FormViewPassed(params[n].key))))
      && (n == |params| && services.twig.None? ==> r == Err(Logic(TwigUnavailable)))
      && (n == |params| && services.twig.Some? ==>
            && r.Ok?
            && (if response == null then fresh(r.value) else r.value == response)
            && r.value.status == StatusAfter(initial, params)
            && r.value.content == services.twig.value(view, Rendered(params)))
      && (response != null ==> response.status == StatusAfter(initial, params[..n]))
      && (response != null && (n < |params| || services.twig.None?) ==> response.content == old(response.content))
  {
    var target := response;
    if target == null {
      target := new Response();
    }
    ghost var initial := target.status;
    var parameters := params;
    for i := 0 to |params|
      invariant forall j :: 0 <= j < i ==> !params[j].arg.FormView?
      invariant target.status == StatusAfter(initial, params[..i])
      invariant |parameters| == |params|
      invariant forall j :: 0 <= j < |params| ==> parameters[j] == if j < i then ViewOf(params[j]) else params[j]
      invariant response == null ==> fresh(target)
      invariant response != null ==> target == response && target.content == old(response.content)
    {
      assert params[..i + 1][..i] == params[..i];
      var v := params[i].arg;
      if v.FormView? {
        assert FirstFormView(params) == i;
        return Err(Logic(FormViewPassed(params[i].key)));
      }
      if !v.Form? {
        continue;
      }
      parameters := parameters[i := Parameter(params[i].key, FormView(v.view))];
      if target.status == HTTP_OK && v.submitted && !v.valid {
        target.SetStatusCode(HTTP_UNPROCESSABLE_ENTITY);
      }
    }
    assert params[..|params|] == params;
    assert parameters == Rendered(params);
    r := Render(services, view, parameters, target);
  }

  // ---------------------------------------------------------------------------
  // getUser

  /** `getUser`: fails without SecurityBundle, null without a token or when
      the token's user is not an object. */
  function GetUser(services: Services): Result<Value> {
    match services.tokenStorage
    case None => Err(Logic(SecurityUnavailable))
    case Some(token) =>
      if token.None? then Ok(Null)
      else if !token.value.user.Obj? then Ok(Null)
      else Ok(token.value.user)
  }

  /** The user is either an object or null, and null exactly when there is no
      token or its user is no object. */
  lemma GetUserFacts(services: Services)
    ensures GetUser(services).Err? <==> services.tokenStorage.None?
    ensures GetUser(services).Ok? ==> GetUser(services).value.Obj? || GetUser(services).value == Null
    ensures GetUser(services).Ok? ==> (GetUser(services).value == Null
      <==> services.tokenStorage.value.None? || !services.tokenStorage.value.value.user.Obj?)
  {
  }
}
