/**
 * The exceptions the core raises, and the result type that carries them.
 * Each constructor keeps the data the PHP exception is built from.
 */
module Errors {
  import opened PhpArray

  datatype Result<+T> = Ok(value: T) | Err(error: Exception) {
    predicate IsFailure() { Err? }
  }

  /** Why `MetadataConfigPass` rejects an entity's class. */
  datatype ClassProblem =
    | ClassDoesNotExist     // the class cannot be reflected
    | NotMappedEntity       // no Doctrine manager handles the class

  /** Why a `LogicException` is raised. */
  datatype LogicProblem =
    | FormViewPassed(parameter: string)   // renderForm() was given a FormView
    | TwigUnavailable                     // rendering without the Twig bundle
    | SecurityUnavailable                 // getUser() without SecurityBundle

  datatype Exception =
    | UndefinedEntity(entityName: Value)
    | NoEntitiesConfigured
    | ForbiddenAction(action: Value, entityName: Value)
    | InvalidType(classProblem: ClassProblem, className: Value, entityKey: string)
    | CompositePrimaryKey(entityClass: string)            // a RuntimeException
    | NoManagerForClass(className: Value)                  // a RuntimeException
    | EntityNotFound(entityName: Value, idName: Value, idValue: Value)
    | BadMethodCall(methodName: string)
    | UnknownAutocompleteEntity(entity: Value)             // an InvalidArgumentException
    | NotATypeConfigurator(serviceId: string)              // an InvalidArgumentException
    | ServiceNotFound(serviceId: string)                   // no such container definition
    | AbstractTaggedService(serviceId: string, tagName: string)  // an InvalidArgumentException
    | Logic(logicProblem: LogicProblem)
    | Raised(origin: string)   // thrown inside a collaborator the model keeps abstract
}
