/** The To Do resources, with the fields the tools decide on. */
module Models {
  import opened Wrappers

  datatype Body = Body(content: string, contentType: string)

  datatype Task = Task(
    id: string, title: string, status: string, body: Option<Body>, bodyBytesTotal: Option<nat>)
  {
    predicate IsCompleted() { status == "completed" }
  }

  datatype TaskList = TaskList(id: string, displayName: string, wellknown: Option<string>)
}
