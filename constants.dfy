/** The enumerations, limits and messages of the client (src/utils/constants.ts). */
module Constants {

  // Task status values
  const TODO: string := "todo"
  const IN_PROGRESS: string := "in-progress"
  const COMPLETED: string := "completed"

  // Task priority values
  const LOW: string := "low"
  const MEDIUM: string := "medium"
  const HIGH: string := "high"

  /** The most projects the page lets one user create. */
  const MAX_PROJECTS_PER_USER: nat := 4

  // Form validation messages
  const REQUIRED: string := "This field is required"
  const INVALID_EMAIL: string := "Please enter a valid email address"
  const PASSWORD_MIN_LENGTH: string := "Password must be at least 6 characters long"
  const PASSWORD_MATCH: string := "Passwords do not match"
  const PROJECT_NAME_MIN_LENGTH: string := "Project name must be at least 3 characters long"
  const PROJECT_NAME_MAX_LENGTH: string := "Project name cannot exceed 50 characters"
  const TASK_TITLE_MIN_LENGTH: string := "Task title must be at least 3 characters long"
  const TASK_TITLE_MAX_LENGTH: string := "Task title cannot exceed 100 characters"
  const DESCRIPTION_MAX_LENGTH: string := "Description cannot exceed 500 characters"
}
