/**
 * Java reflection reduced to plain records: a declared method is its name,
 * whether it is static and its return type; a class is its name and its
 * declared methods in the order reflection lists them (the JDK leaves that
 * order unspecified).
 */
module Reflection {

  type TypeName = string

  type ClassName = string

  datatype MethodInfo = MethodInfo(name: string, isStatic: bool, returnType: TypeName)

  datatype ClassInfo = ClassInfo(name: ClassName, declaredMethods: seq<MethodInfo>)

  datatype FieldInfo = FieldInfo(declaringClass: ClassInfo, name: string)

  /** What an override annotation can sit on. */
  datatype AnnotatedElement =
    | FieldElement(f: FieldInfo)
    | MethodElement(m: MethodInfo)
    | ClassElement(c: ClassInfo)
    | OtherElement
}
