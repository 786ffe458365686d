/**
 * The configuration errors the compiler passes raise. Every pass aborts the
 * build with the first error it detects; each variant carries the context the
 * corresponding message names.
 */
module Errors {
  import opened Values

  datatype ConfigError =
      // asserts.php
    | MultipleTags(service: string, tag: string)
    | ExpectedAbstract(service: string)
    | ExpectedNonAbstract(service: string)
    | UnexpectedType(property: string, allowed: set<TypeName>, service: string)
      // functions.php
    | NoTagName(group: nat)
    | TagNameNotString(group: nat)
      // host container
    | ServiceNotFound(id: string)
    | ParameterNotFound(name: string)
    | TaggedServiceAbstract(service: string, tag: string)
      // DecoratorPass.php
    | TagAlreadyProvided(tag: string, provider: string, service: string)
    | DuplicateTagReference(tag: string, service: string, maybeArgument: Option<ArgKey>)
    | ArgumentNotReference(argument: ArgKey, service: string)
      // ServiceLinkerPass.php
    | ArgumentAlreadyDefined(argument: ArgKey, service: string)
    | NoProviders(tag: string)
    | AlreadyProvided(existing: string, key: string, tag: string)
    | NoServiceProvides(key: string, tag: string)
    | AmbiguousSource(service: string, tag: string)
      // DynamicCompositePass.php
    | ArgumentDefinedByResolver(argument: ArgKey)
      // EventDispatcherPass.php
    | MissingDispatcherOption(option: string, service: string)
    | SameListenerAndSubscriber(service: string)
    | TagAlreadyUsed(usedTag: Scalar, service: string)
      // ConsoleRunnablePass.php
    | NoCommandOrMapper(tag: string, service: string)
    | BothCommandAndMapper(tag: string, service: string)
    | MapperDoesNotExist(mapper: string, service: string)
    | MapperNotImplementing(mapper: string, service: string)
    | RunnableClassMissing(service: string)
      // DsMapRunnableToNameMapper.php
    | RunnableNotMapped(fqn: string)

  /** A computation that either yields a value or aborts the build. */
  datatype Result<+T> = Ok(value: T) | Err(error: ConfigError) {
    predicate IsFailure() {
      Err?
    }

    function PropagateFailure<U>(): Result<U>
      requires Err?
    {
      Err(error)
    }

    function Extract(): T
      requires Ok?
    {
      value
    }
  }

  /** Success without a value: a PHP `void` call that may throw. */
  datatype Status = Pass | Fail(error: ConfigError) {
    predicate IsFailure() {
      Fail?
    }

    function PropagateFailure<U>(): Result<U>
      requires Fail?
    {
      Err(error)
    }
  }
}
