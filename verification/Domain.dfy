/** The values that services, middlewares and the proxy exchange (domain/, entity/). */
module Domain {
  import opened Wrappers

  datatype AppAuthData = AppAuthData(
    appName: string, systemId: int, domainId: int, serviceId: int, applicationId: int)

  /** What the user authority returns and the shared cache keeps. */
  datatype UserData = UserData(identity: string, identityHeader: string, extraHeaders: Option<map<string, seq<string>>>)

  /** The same data as a request sees it, with the flag of its own module's setting. */
  datatype UserAuthData = UserAuthData(skipAppAuth: bool, data: UserData)

  datatype EndpointMeta = EndpointMeta(
    inner: bool, userAuthRequired: bool, moduleName: string, requiredAdminPermission: string,
    pathSchema: string, endpoint: string)

  /** A service's answer: an error, a negative answer, or a positive one. */
  datatype Answer<+D> = Failed | Denied | Granted(data: D)
}
