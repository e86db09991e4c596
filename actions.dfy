/** The closed set of lifecycle events of the hook dispatcher (lib/mixins/index.js).
    Each of the dispatcher's ten methods fires exactly one event, and a mixin
    takes part in an event by having a property whose key is the event's name. */
module Actions {

  /** One constructor per dispatch method of the object the factory returns. */
  datatype Action =
    | Configure
    | Endpoint
    | BeforeRequest
    | BeforeCreate
    | AfterCreate
    | BeforeUpdate
    | AfterUpdate
    | BeforeRead
    | AfterRead
    | BeforeDelete

  /** The property key a mixin must carry to take part in the event. */
  function Name(a: Action): string
  {
    match a
    case Configure => "configure"
    case Endpoint => "endpoint"
    case BeforeRequest => "beforeRequest"
    case BeforeCreate => "beforeCreate"
    case AfterCreate => "afterCreate"
    case BeforeUpdate => "beforeUpdate"
    case AfterUpdate => "afterUpdate"
    case BeforeRead => "beforeRead"
    case AfterRead => "afterRead"
    case BeforeDelete => "beforeDelete"
  }

  /** Distinct events use distinct keys, so firing one event never reaches
      the handlers of another. */
  lemma NamesDistinct(a: Action, b: Action)
    ensures Name(a) == Name(b) <==> a == b
  {
  }
}
