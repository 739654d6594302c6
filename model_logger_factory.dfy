/**
 * The domain layer's LoggerFactory: a process-wide slot holding the installed
 * provider, which fails fast while nothing is installed, and the static
 * getLoggerFor conveniences that go through it. The repository's only
 * provider is DomainLoggerFactory, so the slot holds one of those.
 */
module ModelFactory {
  import opened LoggerManagement
  import opened DomainFactory

  datatype IllegalStateException = IllegalStateException(message: string)

  /** A call that returns a value or throws IllegalStateException. */
  datatype Result<T> = Success(value: T) | Failure(error: IllegalStateException)

  const NotInitializedMessage := "LoggerFactory not initialized. Call setInstance() first."

  /** The static `instance` field of the domain LoggerFactory and the static methods that use it. */
  class LoggerFactorySlot {
    var instance: DomainLoggerFactory?

    constructor ()
      ensures instance == null
    {
      instance := null;
    }

    /** setInstance(factory): the last call wins; installing null empties the slot again. */
    method SetInstance(factory: DomainLoggerFactory?)
      modifies this
      ensures instance == factory
    {
      instance := factory;
    }

    /** getInstance(): the installed provider, or IllegalStateException while there is none. */
    method GetInstance() returns (r: Result<DomainLoggerFactory>)
      ensures r.Failure? <==> instance == null
      ensures r.Success? ==> r.value == instance
      ensures r.Failure? ==> r.error == IllegalStateException(NotInitializedMessage)
    {
      if instance == null {
        return Failure(IllegalStateException(NotInitializedMessage));
      }
      return Success(instance);
    }

    /** getLoggerFor(name): getInstance().getLogger(name), failing like getInstance() does. */
    method GetLoggerFor(name: string) returns (r: Result<Slf4jLoggerAdapter>)
      requires instance != null ==> instance.loggerManager.Valid()
      modifies if instance == null then {} else {instance.loggerManager}
      ensures r.Failure? <==> instance == null
      ensures r.Failure? ==> r.error == IllegalStateException(NotInitializedMessage)
      ensures instance != null ==> instance.loggerManager.Valid()
      ensures instance != null ==>
        instance.loggerManager.minimumLogLevel == old(instance.loggerManager.minimumLogLevel)
      ensures r.Success? ==> r.value.name == name && r.value.loggerManager == instance.loggerManager
      ensures r.Success? && name in old(instance.loggerManager.loggers) ==>
        r.value == old(instance.loggerManager.loggers)[name]
        && instance.loggerManager.loggers == old(instance.loggerManager.loggers)
      ensures r.Success? && name !in old(instance.loggerManager.loggers) ==>
        fresh(r.value) && instance.loggerManager.loggers == old(instance.loggerManager.loggers)[name := r.value]
    {
      var provider := GetInstance();
      if provider.Failure? {
        return Failure(provider.error);
      }
      var logger := provider.value.GetLogger(name);
      return Success(logger);
    }

    /** getLoggerFor(clazz): getInstance().getLogger(clazz), failing like getInstance() does. */
    method GetLoggerForClass(clazz: JavaClass) returns (r: Result<Slf4jLoggerAdapter>)
      requires instance != null ==> instance.loggerManager.Valid()
      modifies if instance == null then {} else {instance.loggerManager}
      ensures r.Failure? <==> instance == null
      ensures r.Failure? ==> r.error == IllegalStateException(NotInitializedMessage)
      ensures instance != null ==> instance.loggerManager.Valid()
      ensures instance != null ==>
        instance.loggerManager.minimumLogLevel == old(instance.loggerManager.minimumLogLevel)
      ensures r.Success? ==> r.value.name == clazz.name && r.value.loggerManager == instance.loggerManager
      ensures r.Success? && clazz.name in old(instance.loggerManager.loggers) ==>
        r.value == old(instance.loggerManager.loggers)[clazz.name]
        && instance.loggerManager.loggers == old(instance.loggerManager.loggers)
      ensures r.Success? && clazz.name !in old(instance.loggerManager.loggers) ==>
        fresh(r.value) && instance.loggerManager.loggers == old(instance.loggerManager.loggers)[clazz.name := r.value]
    {
      var provider := GetInstance();
      if provider.Failure? {
        return Failure(provider.error);
      }
      var logger := provider.value.GetLoggerForClass(clazz);
      return Success(logger);
    }
  }
}
