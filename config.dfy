/** The label, finalizer and status strings the controller uses (internal/config/const.go). */
module Config {
  const GwDomain: string := "k8s.srvrscloud.com"
  const GwFinalizer: string := GwDomain + "/gateway-cleanup"
  const GwLabelId: string := GwDomain + "/api-gateway-id"
  const SecretLabelId: string := GwDomain + "/api-secret-id"
  const LbActiveStatus: string := "active"
}
