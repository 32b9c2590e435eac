/** Optional values and the exceptions of the modelled Java code. */
module Outcomes {

  /** A Java reference that may be null. */
  datatype Option<+T> = None | Some(value: T)

  /** The exceptions the modelled code throws or lets through, by Java class. */
  datatype Failure =
    | IllegalState         // java.lang.IllegalStateException
    | Runtime              // java.lang.RuntimeException (Server.getUrl)
    | IndexOutOfBounds     // StringIndexOutOfBoundsException from String.substring
    | IllegalArgument      // IllegalArgumentException
    | NullPointer          // NullPointerException
    | MalformedObjectName  // javax.management.MalformedObjectNameException
    | InstanceNotFound     // javax.management.InstanceNotFoundException
    | Introspection        // javax.management.IntrospectionException
    | Reflection           // javax.management.ReflectionException
    | IO                   // java.io.IOException other than UnmarshalException
    | Unmarshal(causeIsClassNotFound: bool)  // java.rmi.UnmarshalException and whether its cause is a ClassNotFoundException

  /** A value, or the exception thrown instead of returning one. */
  datatype Outcome<+T> = Ok(value: T) | Thrown(failure: Failure)
}
