/**
 * The shared vocabulary of the bean-override mechanism: how an override is
 * applied, the metadata every override carries, and the container objects an
 * override method is handed.
 */
module BeanOverride {
  import opened Wrappers
  import opened Reflection

  /** Replace-only demands that a bean definition to replace exists;
      replace-or-create registers one when it is missing. */
  datatype BeanOverrideStrategy = ReplaceDefinition | ReplaceOrCreateDefinition

  /** The override annotation an element carries, identified by its type. */
  datatype AnnotationRef = AnnotationRef(annotationType: string)

  /** The state held by `OverrideMetadata`: the annotated field, the
      annotation, the type to override and the strategy. Each may be null. */
  datatype OverrideMetadata = OverrideMetadata(
    field: Option<FieldInfo>,
    annotation: Option<AnnotationRef>,
    typeToOverride: Option<TypeName>,
    strategy: Option<BeanOverrideStrategy>)

  /** The existing bean definition and bean instance an override is offered;
      no override modelled here looks inside them. */
  datatype BeanDefinition = BeanDefinition

  datatype BeanInstance = BeanInstance
}
