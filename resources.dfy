/** The two resource files the services read: the error catalogue
    (main/resources/errors.json) and the configuration
    (main/resources/config.json). Their values are not part of this model,
    so they are parameters of every operation that uses them. */
module Resources {

  /** An entry of the error catalogue: the HTTP status it is answered with,
      its message, and whatever further fields the entry may carry. */
  datatype ErrorObject = ErrorObject(status: int, message: string, otherFields: map<string, string>)

  /** The catalogue entries the core selects from. */
  datatype Catalogue = Catalogue(
    acceptHeaderError: ErrorObject,
    exceededRateLimit: ErrorObject,
    userNotFound: ErrorObject,
    internalServerError: ErrorObject)

  /** The three entries the request handler can select have different
      statuses, so a response status tells which one was chosen. */
  predicate DistinctStatuses(errors: Catalogue) {
    && errors.exceededRateLimit.status != errors.userNotFound.status
    && errors.exceededRateLimit.status != errors.internalServerError.status
    && errors.userNotFound.status != errors.internalServerError.status
  }

  /** `REPOSITORIES_PER_PAGE_DEFAULT` and `BRANCHES_PER_REPOSITORY_DEFAULT`. */
  datatype Config = Config(repositoriesPerPageDefault: int, branchesPerRepositoryDefault: int)

  predicate PositiveDefaults(config: Config) {
    config.repositoriesPerPageDefault > 0 && config.branchesPerRepositoryDefault > 0
  }
}
