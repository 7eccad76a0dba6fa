/** The record shapes the dashboard works with (types.ts). */
module Types {

  /** An optional value: `Story | null` in the dashboard's state. */
  datatype Option<+T> = None | Some(value: T)

  /** A saved story. `id` and `date` are opaque strings produced by the clock and locale. */
  datatype Story = Story(id: string, title: string, content: string, date: string)

  /** A milestone badge, derived from the number of saved stories (`caption` is the source's `label`, a Dafny keyword). */
  datatype Badge = Badge(caption: string, unlocked: bool)
}
