/** What the generator hands to KotlinPoet, as plain data: class names, type
    names, function declarations with their single `return` statement, and a
    type builder that functions and nested types are added to in place. */
module Poet {

  /** A class `packageName.enclosing[0]. ... .simpleName`. */
  datatype ClassName = ClassName(packageName: string, enclosing: seq<string>, simpleName: string)

  datatype TypeName =
    | Class(className: ClassName)
    | Parameterized(rawType: ClassName, typeArguments: seq<TypeName>)

  /** A member function of a class, such as `ClientCalls.blockingUnaryCall`. */
  datatype MemberName = MemberName(enclosingClassName: ClassName, simpleName: string)

  /** An argument in a generated call: a name in scope (`channel`,
      `callOptions`, `request`) or a call without arguments (`getFooMethod()`). */
  datatype Expr = Ref(identifier: string) | Invoke(callee: string)

  /** The body of every generated function is one `return` of a call:
      either of a member function or of a class's constructor. */
  datatype CodeBlock =
    | ReturnCall(member: MemberName, args: seq<Expr>)
    | ReturnNew(constructed: ClassName, args: seq<Expr>)

  datatype ParamSpec = ParamSpec(name: string, paramType: TypeName)

  datatype FunSpec = FunSpec(name: string, parameters: seq<ParamSpec>, returnType: TypeName, code: CodeBlock)

  datatype TypeSpec = TypeSpec(name: string, funSpecs: seq<FunSpec>, typeSpecs: seq<TypeSpec>)

  /** `TypeSpec.Builder`: accumulates functions and nested types in the order
      they are added. */
  class TypeSpecBuilder {
    const name: string
    var funSpecs: seq<FunSpec>
    var typeSpecs: seq<TypeSpec>

    /** `TypeSpec.classBuilder(className)`: the type takes the class's simple name. */
    constructor ClassBuilder(className: ClassName)
      ensures name == className.simpleName
      ensures funSpecs == [] && typeSpecs == []
    {
      name := className.simpleName;
      funSpecs := [];
      typeSpecs := [];
    }

    method AddFunction(funSpec: FunSpec)
      modifies this
      ensures funSpecs == old(funSpecs) + [funSpec]
      ensures typeSpecs == old(typeSpecs)
    {
      funSpecs := funSpecs + [funSpec];
    }

    method AddFunctions(added: seq<FunSpec>)
      modifies this
      ensures funSpecs == old(funSpecs) + added
      ensures typeSpecs == old(typeSpecs)
    {
      funSpecs := funSpecs + added;
    }

    method AddType(typeSpec: TypeSpec)
      modifies this
      ensures typeSpecs == old(typeSpecs) + [typeSpec]
      ensures funSpecs == old(funSpecs)
    {
      typeSpecs := typeSpecs + [typeSpec];
    }

    /** `build()`: the type as added so far, under the builder's name. */
    function Build(): (t: TypeSpec)
      reads this
      ensures t.name == name && t.funSpecs == funSpecs && t.typeSpecs == typeSpecs
    {
      TypeSpec(name, funSpecs, typeSpecs)
    }
  }
}
