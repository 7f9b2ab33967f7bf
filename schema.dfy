/**
 * The JSON-schema collaborator: schemas, the validators compiled from them,
 * and the registry that `addSchema` fills and `compile` resolves against.
 * What a schema accepts, and what it reports when it rejects, is left
 * uninterpreted: a schema carries both as function values.
 */
module JsonSchema {
  import opened Wrappers
  import opened JsonValue

  /** One violation recorded by a validator (ajv's `DefinedError`). */
  datatype SchemaError = SchemaError(instancePath: string, schemaPath: string, keyword: string)

  /**
   * A schema: its identifier, the names of the registered schemas it refers to,
   * the payloads it accepts and the violations it records for a payload.
   */
  datatype Schema = Schema(
    id: string,
    refs: set<string>,
    accepts: Json -> bool,
    explain: Json -> seq<SchemaError>)

  /** Why compiling failed: references that name no registered schema. */
  datatype CompileError = UnresolvedRefs(missing: set<string>)

  /** What the registry was asked to do, in order. */
  datatype SchemaEvent = Added(name: string) | Compiled(id: string)

  /**
   * A compiled validator. Like an ajv `ValidateFunction`, every call overwrites
   * `errors`: no errors after a payload it accepts, the payload's violations
   * after one it rejects.
   */
  class Validator {
    const schema: Schema
    var errors: Option<seq<SchemaError>>

    constructor (schema: Schema)
      ensures this.schema == schema && errors == None
    {
      this.schema := schema;
      errors := None;
    }

    method Validate(x: Json) returns (ok: bool)
      modifies this
      ensures ok == schema.accepts(x)
      ensures errors == if ok then None else Some(schema.explain(x))
    {
      ok := schema.accepts(x);
      errors := if ok then None else Some(schema.explain(x));
    }
  }

  /** The schema service: a registry of named schemas and a compiler. */
  class JsonSchemaService {
    var registered: set<string>
    var events: seq<SchemaEvent>
    /** The validators this service has handed out, which it may hand out again. */
    ghost var compiled: set<Validator>

    constructor ()
      ensures registered == {} && events == [] && compiled == {}
    {
      registered := {};
      events := [];
      compiled := {};
    }

    /** Registers `schema` under `name`, so that later schemas can refer to it. */
    method AddSchema(schema: Schema, name: string)
      modifies this
      ensures registered == old(registered) + {name}
      ensures events == old(events) + [Added(name)]
      ensures compiled == old(compiled)
    {
      registered := registered + {name};
      events := events + [Added(name)];
    }

    /**
     * Compiles `schema`; fails when it refers to a schema not yet registered.
     * The validator may be one compiled earlier from the same schema (the
     * schema library caches compiled schemas), so validators and their
     * `errors` can be shared between callers.
     */
    method Compile(schema: Schema) returns (r: Result<Validator, CompileError>)
      modifies this
      ensures registered == old(registered)
      ensures events == old(events) + [Compiled(schema.id)]
      ensures r.Success? <==> schema.refs <= registered
      ensures r.Success? ==> r.value.schema == schema
      ensures r.Success? ==> fresh(r.value) || r.value in old(compiled)
      ensures compiled == if r.Success? then old(compiled) + {r.value} else old(compiled)
      ensures r.Failure? ==> r.error == UnresolvedRefs(schema.refs - registered)
    {
      events := events + [Compiled(schema.id)];
      if schema.refs <= registered {
        var v := new Validator(schema);
        compiled := compiled + {v};
        r := Success(v);
      } else {
        r := Failure(UnresolvedRefs(schema.refs - registered));
      }
    }
  }
}
