/** The plugin's configuration: the three strings the host's settings page fills in. */
module Config {

  /** UserCenterConfig. The publishable key is only for the browser-side Clerk.js. */
  datatype UserCenterConfig = UserCenterConfig(
    publishableKey: string,
    secretKey: string,
    frontendApi: string)
}
