/**
 * `ExceptionListener`: EasyAdmin's own exceptions get an error page rendered
 * with the entity's or the backend's templates; every other exception is
 * left to the framework.
 */
module ExceptionHandling {
  import opened PhpArray

  const DEFAULT_EXCEPTION_TEMPLATE: string := "@EasyAdmin/default/exception.html.twig"
  const DEFAULT_LAYOUT_TEMPLATE: string := "@EasyAdmin/default/layout.html.twig"

  /** A thrown exception: whether it is one of the bundle's `BaseException`s,
      and the status code it carries. */
  datatype Thrown = Thrown(isBase: bool, statusCode: int)

  datatype Level = Critical | Error

  datatype LogRecord =
    | Logged(level: Level, message: string)
    | ParentLogged(message: string)   // `ErrorListener::logException`

  /** The page rendered for an exception. */
  datatype Page = Page(content: string, status: int)

  /** Twig's `render` with the template path and the layout path, kept abstract. */
  type Renderer = (string, Thrown, Value) -> string

  /** `$x ?? $fallback` */
  function Coalesce(x: Value, fallback: Value): Value {
    if x != Null then x else fallback
  }

  /** A template of the error page: the entity's, else the backend design's,
      else the default. */
  function TemplateFor(config: Value, entityName: Value, which: string, default: string): Value {
    var entityConfig := Path(config, ["entities", KeyOf(entityName)]);
    Coalesce(Path(entityConfig, ["templates", which]), Coalesce(Path(config, ["design", "templates", which]), Str(default)))
  }

  function ExceptionTemplate(config: Value, entityName: Value): Value {
    TemplateFor(config, entityName, "exception", DEFAULT_EXCEPTION_TEMPLATE)
  }

  function LayoutTemplate(config: Value, entityName: Value): Value {
    TemplateFor(config, entityName, "layout", DEFAULT_LAYOUT_TEMPLATE)
  }

  /** The fallback chain, level by level; a template is never null. */
  lemma TemplateFallback(config: Value, entityName: Value, which: string, default: string)
    ensures var t := TemplateFor(config, entityName, which, default);
      var entityLevel := Path(config, ["entities", KeyOf(entityName), "templates", which]);
      var designLevel := Path(config, ["design", "templates", which]);
      && (entityLevel != Null ==> t == entityLevel)
      && (entityLevel == Null && designLevel != Null ==> t == designLevel)
      && (entityLevel == Null && designLevel == Null ==> t == Str(default))
      && t != Null
  {
    PathAppend(config, ["entities", KeyOf(entityName)], ["templates", which]);
    assert ["entities", KeyOf(entityName)] + ["templates", which] == ["entities", KeyOf(entityName), "templates", which];
  }

  /** An entity the configuration does not know contributes nothing. */
  lemma UnknownEntity(config: Value, entityName: Value, which: string, default: string)
    requires Path(config, ["entities", KeyOf(entityName)]) == Null
    ensures TemplateFor(config, entityName, which, default) == Coalesce(Path(config, ["design", "templates", which]), Str(default))
  {
    assert ["templates", which][1..] == [which];
    assert Path(Null, [which]) == Null;
  }

  lemma {:induction false} PathAppend(v: Value, a: seq<string>, b: seq<string>)
    ensures Path(v, a + b) == Path(Path(v, a), b)
    decreases |a|
  {
    if |a| > 0 {
      assert (a + b)[1..] == a[1..] + b;
      PathAppend(At(v, a[0]), a[1..], b);
    } else {
      assert a + b == b;
    }
  }

  /** `logException`'s choice of level for the bundle's exceptions. */
  function LevelFor(statusCode: int): (level: Level)
    ensures level == Critical <==> statusCode >= 500
  {
    if statusCode >= 500 then Critical else Error
  }

  class ExceptionListener {
    const easyAdminConfig: Value
    const render: Renderer
    const hasLogger: bool
    var currentEntityName: Value
    var log: seq<LogRecord>

    constructor(easyAdminConfig: Value, render: Renderer, hasLogger: bool)
      ensures this.easyAdminConfig == easyAdminConfig && this.render == render && this.hasLogger == hasLogger
      ensures currentEntityName == Null && log == []
    {
      this.easyAdminConfig := easyAdminConfig;
      this.render := render;
      this.hasLogger := hasLogger;
      currentEntityName := Null;
      log := [];
    }

    /** Records the `entity` query parameter; answers whether the framework's
        handler runs, which it does only for the bundle's exceptions. */
    method OnKernelException(exception: Thrown, query: Value) returns (delegated: bool)
      modifies this
      ensures currentEntityName == At(query, "entity") && log == old(log)
      ensures delegated == exception.isBase
    {
      currentEntityName := At(query, "entity");
      delegated := exception.isBase;
    }

    /** `showExceptionPageAction` */
    function ShowExceptionPage(exception: Thrown): (page: Page)
      reads this
      ensures page.status == exception.statusCode
      ensures var entityLevel := Path(easyAdminConfig, ["entities", KeyOf(currentEntityName), "templates", "exception"]);
        var designLevel := Path(easyAdminConfig, ["design", "templates", "exception"]);
        var template := if entityLevel != Null then entityLevel else if designLevel != Null then designLevel else Str(DEFAULT_EXCEPTION_TEMPLATE);
        page.content == render(StringOf(template), exception, LayoutTemplate(easyAdminConfig, currentEntityName))
    {
      TemplateFallback(easyAdminConfig, currentEntityName, "exception", DEFAULT_EXCEPTION_TEMPLATE);
      Page(render(StringOf(ExceptionTemplate(easyAdminConfig, currentEntityName)), exception,
                  LayoutTemplate(easyAdminConfig, currentEntityName)),
           exception.statusCode)
    }

    method LogException(exception: Thrown, message: string)
      modifies this
      ensures currentEntityName == old(currentEntityName)
      ensures !exception.isBase ==> log == old(log) + [ParentLogged(message)]
      ensures exception.isBase && hasLogger ==> log == old(log) + [Logged(LevelFor(exception.statusCode), message)]
      ensures exception.isBase && !hasLogger ==> log == old(log)
    {
      if !exception.isBase {
        log := log + [ParentLogged(message)];
        return;
      }
      if hasLogger {
        if exception.statusCode >= 500 {
          log := log + [Logged(Critical, message)];
        } else {
          log := log + [Logged(Error, message)];
        }
      }
    }
  }
}
