/** The toast notifications the components raise, as values. */
module Toasts {

  /** A toast: its title, its description, and whether it uses the
      `destructive` (error) variant. */
  datatype Toast = Toast(title: string, description: string, destructive: bool)
}
