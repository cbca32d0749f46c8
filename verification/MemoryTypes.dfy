/** Memory entries and the scopes in which they are recalled. */
module MemoryTypes {
  import opened Wrappers

  datatype Category = Core | Daily | Conversation | Global | Custom(name: string)

  datatype RecallScope = Full | FactsOnly | CurrentTopic(topicId: string) | Clean

  datatype MemoryEntry = MemoryEntry(
    key: string, content: string, category: Category, session: Option<string>, topic: Option<string>)
}
