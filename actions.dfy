/**
 * The action record the language model replies with and the interpreter
 * hands to the dispatcher: a JSON object whose fields may each be absent.
 */
module Actions {
  import opened Wrappers

  datatype ActionRecord = ActionRecord(
    action: Option<string>,
    selector: Option<string>,
    index: Option<int>,
    value: Option<string>,
    direction: Option<string>,
    response: Option<string>)

  /** JavaScript truthiness of an optional string: present and non-empty. */
  predicate Truthy(f: Option<string>) {
    f.Some? && f.value != ""
  }

  /** The record `{action: 'none', response: text}` the interpreter builds itself. */
  function Say(text: string): ActionRecord {
    ActionRecord(Some("none"), None, None, None, None, Some(text))
  }
}
