/** The trees that apps return from their "bindings" call (apps/binding.go, form.go, field.go). */
module Bindings {
  import opened Wrappers

  type AppID = string
  type Location = string

  datatype Call = Call(path: string, state: string)

  datatype SelectOption = SelectOption(labelText: string, value: string, iconData: string)

  datatype FieldType = StaticSelect | DynamicSelect | OtherField(kind: string)

  datatype Field = Field(
    name: string,
    fieldType: FieldType,
    labelText: string,
    description: string,
    options: seq<SelectOption>,
    lookup: Option<Call>)

  datatype Form = Form(
    source: Option<Call>,
    title: string,
    icon: string,
    submit: Option<Call>,
    fields: seq<Field>)

  /** A binding is an action, a form, or a container of sub-bindings. */
  datatype Binding = Binding(
    appID: AppID,
    location: Location,
    icon: string,
    labelText: string,
    hint: string,
    description: string,
    submit: Option<Call>,
    form: Option<Form>,
    bindings: seq<Binding>)
}
