/**
 * The passes that turn the configuration written by the user into the one the
 * application reads. PHP dispatches through `ConfigPassInterface::process`;
 * here the two passes of the bundle are constructors of one datatype, and
 * every other registered pass is an opaque total function.
 */
module ConfigPasses {
  import opened PhpArray
  import opened Errors
  import MetadataPass
  import DesignPass

  datatype ConfigPass =
    | Metadata(doctrine: MetadataPass.Doctrine)
    | Design(twig: DesignPass.Renderer, kernelDebug: bool, locale: string)
    | Other(run: Value -> Result<Value>)

  /** `$configPass->process($backendConfig)` */
  function Apply(pass: ConfigPass, config: Value): Result<Value> {
    match pass
    case Metadata(d) => MetadataPass.Processed(d, config)
    case Design(twig, kernelDebug, locale) => Ok(DesignPass.Process(config, twig, kernelDebug, locale))
    case Other(run) => run(config)
  }

  /** The passes folded over a configuration in order; the first exception
      stops the fold. */
  function ApplyAll(passes: seq<ConfigPass>, config: Value): Result<Value>
    decreases |passes|
  {
    if |passes| == 0 then Ok(config)
    else match Apply(passes[0], config)
      case Err(e) => Err(e)
      case Ok(next) => ApplyAll(passes[1..], next)
  }

  method Run(pass: ConfigPass, config: Value) returns (r: Result<Value>)
    ensures r == Apply(pass, config)
  {
    match pass
    case Metadata(d) =>
      r := MetadataPass.Process(d, config);
    case Design(twig, kernelDebug, locale) =>
      r := Ok(DesignPass.Process(config, twig, kernelDebug, locale));
    case Other(run) =>
      r := run(config);
  }

  /** Running a list of passes is running its first part, then the rest on the result. */
  lemma {:induction false} ApplyAllAppend(first: seq<ConfigPass>, rest: seq<ConfigPass>, config: Value)
    ensures ApplyAll(first + rest, config)
         == match ApplyAll(first, config) { case Err(e) => Err(e) case Ok(c) => ApplyAll(rest, c) }
    decreases |first|
  {
    if |first| == 0 {
      assert first + rest == rest;
    } else {
      assert (first + rest)[0] == first[0];
      assert (first + rest)[1..] == first[1..] + rest;
      match Apply(first[0], config)
      case Err(e) =>
      case Ok(next) =>
        ApplyAllAppend(first[1..], rest, next);
    }
  }

  /** One more pass at the end sees the result of all the earlier ones. */
  lemma ApplyAllSnoc(passes: seq<ConfigPass>, pass: ConfigPass, config: Value)
    ensures ApplyAll(passes + [pass], config)
         == match ApplyAll(passes, config) { case Err(e) => Err(e) case Ok(c) => Apply(pass, c) }
  {
    ApplyAllAppend(passes, [pass], config);
    match ApplyAll(passes, config)
    case Err(e) =>
    case Ok(c) =>
      assert [pass][1..] == [];
  }

  /** The design pass is idempotent, and so, for entity configurations with
      unique names, is the metadata pass: registering the same pass twice in a
      row changes nothing. */
  lemma RepeatedDesignPass(twig: DesignPass.Renderer, kernelDebug: bool, locale: string, config: Value)
    ensures ApplyAll([Design(twig, kernelDebug, locale), Design(twig, kernelDebug, locale)], config)
         == ApplyAll([Design(twig, kernelDebug, locale)], config)
  {
    var p := Design(twig, kernelDebug, locale);
    DesignPass.Idempotent(config, twig, kernelDebug, locale);
    var once := DesignPass.Process(config, twig, kernelDebug, locale);
    assert [p, p][1..] == [p];
    assert ApplyAll([p], once) == Ok(DesignPass.Process(once, twig, kernelDebug, locale));
  }

  lemma RepeatedMetadataPass(d: MetadataPass.Doctrine, config: Value)
    requires UniqueKeys(MetadataPass.EntitiesOf(config))
    requires MetadataPass.Processed(d, config).Ok?
    ensures ApplyAll([Metadata(d), Metadata(d)], config) == ApplyAll([Metadata(d)], config)
  {
    var p := Metadata(d);
    MetadataPass.Idempotent(d, config);
    var once := MetadataPass.Processed(d, config).value;
    assert [p, p][1..] == [p];
    assert ApplyAll([p], once) == MetadataPass.Processed(d, once);
  }
}
